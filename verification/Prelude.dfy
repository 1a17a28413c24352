/** Stock vocabulary shared by every module: options, saturating subtraction,
    bytes, and the "in-order subsequence" relation conservation is stated with. */
module Prelude {

  datatype Option<+T> = None | Some(value: T)

  type Byte = b: nat | b < 256

  type Positive = n: nat | 1 <= n witness 1

  function Max(a: int, b: int): int {
    if a >= b then a else b
  }

  /** Unsigned subtraction that stops at zero. */
  function SatSub(a: nat, b: nat): nat {
    if a >= b then a - b else 0
  }

  /** Whole nanoseconds, in seconds. */
  function Seconds(nanos: nat): real {
    nanos as real / 1_000_000_000.0
  }

  /** `part` can be had from `whole` by deleting elements, order kept. */
  ghost predicate Subsequence<T>(part: seq<T>, whole: seq<T>) {
    if part == [] then true
    else if whole == [] then false
    else
      var w := whole[..|whole| - 1];
      Subsequence(part, w) ||
      (part[|part| - 1] == whole[|whole| - 1] && Subsequence(part[..|part| - 1], w))
  }

  lemma SubsequenceGrows<T>(part: seq<T>, whole: seq<T>, x: T)
    requires Subsequence(part, whole)
    ensures Subsequence(part, whole + [x])
    ensures Subsequence(part + [x], whole + [x])
  {
    assert (whole + [x])[..|whole|] == whole;
    assert (part + [x])[..|part|] == part;
  }

  lemma {:induction false} SubsequencePrefix<T>(part: seq<T>, x: T, whole: seq<T>)
    requires Subsequence(part + [x], whole)
    ensures Subsequence(part, whole)
    decreases |whole|
  {
    if part == [] {
    } else {
      var w := whole[..|whole| - 1];
      assert (part + [x])[..|part|] == part;
      if Subsequence(part + [x], w) {
        SubsequencePrefix(part, x, w);
      }
    }
  }

  /** Losing one element from the middle keeps the rest in order. */
  lemma {:induction false} SubsequenceWithout<T>(front: seq<T>, x: T, back: seq<T>, whole: seq<T>)
    requires Subsequence(front + [x] + back, whole)
    ensures Subsequence(front + back, whole)
    decreases |whole|
  {
    if back == [] {
      assert front + [x] + back == front + [x];
      assert front + back == front;
      SubsequencePrefix(front, x, whole);
    } else {
      var w := whole[..|whole| - 1];
      var part := front + [x] + back;
      var init := back[..|back| - 1];
      assert part[..|part| - 1] == front + [x] + init;
      assert (front + back)[..|front + back| - 1] == front + init;
      if Subsequence(part, w) {
        SubsequenceWithout(front, x, back, w);
      } else {
        SubsequenceWithout(front, x, init, w);
      }
    }
  }

  /** Losing a whole stretch from the middle keeps the rest in order. */
  lemma {:induction false} SubsequenceCut<T>(front: seq<T>, gone: seq<T>, back: seq<T>, whole: seq<T>)
    requires Subsequence(front + gone + back, whole)
    ensures Subsequence(front + back, whole)
    decreases |gone|
  {
    if gone == [] {
      assert front + gone + back == front + back;
    } else {
      assert front + gone + back == front + [gone[0]] + (gone[1..] + back);
      SubsequenceWithout(front, gone[0], gone[1..] + back, whole);
      assert front + (gone[1..] + back) == front + gone[1..] + back;
      SubsequenceCut(front, gone[1..], back, whole);
    }
  }

  lemma {:induction false} SubsequenceSelf<T>(s: seq<T>)
    ensures Subsequence(s, s)
  {
    if s == [] {
    } else {
      SubsequenceSelf(s[..|s| - 1]);
    }
  }

  lemma {:induction false} SubsequenceJoin<T>(a: seq<T>, x: seq<T>, b: seq<T>, y: seq<T>)
    requires Subsequence(a, x) && Subsequence(b, y)
    ensures Subsequence(a + b, x + y)
    decreases |y|
  {
    if y == [] {
      assert a + b == a && x + y == x;
    } else {
      var w := y[..|y| - 1];
      assert (x + y)[..|x + y| - 1] == x + w;
      if Subsequence(b, w) {
        SubsequenceJoin(a, x, b, w);
      } else {
        SubsequenceJoin(a, x, b[..|b| - 1], w);
        assert (a + b)[..|a + b| - 1] == a + b[..|b| - 1];
      }
    }
  }

  lemma {:induction false} SubsequenceChain<T>(a: seq<T>, b: seq<T>, c: seq<T>)
    requires Subsequence(a, b) && Subsequence(b, c)
    ensures Subsequence(a, c)
    decreases |c|
  {
    if a == [] || c == [] {
    } else {
      var w := c[..|c| - 1];
      if Subsequence(b, w) {
        SubsequenceChain(a, b, w);
      } else {
        var v := b[..|b| - 1];
        if Subsequence(a, v) {
          SubsequenceChain(a, v, w);
        } else {
          SubsequenceChain(a[..|a| - 1], v, w);
        }
      }
    }
  }

  lemma SubsequenceOfPrefix<T>(front: seq<T>, back: seq<T>, whole: seq<T>)
    requires Subsequence(front + back, whole)
    ensures Subsequence(front, whole)
  {
    assert front + back + [] == front + back && front + [] == front;
    SubsequenceCut(front, back, [], whole);
  }

  lemma {:induction false} SubsequenceMember<T>(part: seq<T>, whole: seq<T>, x: T)
    requires Subsequence(part, whole) && x in part
    ensures x in whole
    decreases |whole|
  {
    var w := whole[..|whole| - 1];
    if Subsequence(part, w) {
      SubsequenceMember(part, w, x);
    } else if x != whole[|whole| - 1] {
      SubsequenceMember(part[..|part| - 1], w, x);
    }
  }
}
