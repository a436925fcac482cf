/** Shift registers in the abstract: what follows from a linear, injective step
    without looking at single bits of the register. */
module Registers {

  function Fold<T, B>(g: (T, B) -> T, c: T, xs: seq<B>): T
    decreases |xs|
  {
    if xs == [] then c else Fold(g, g(c, xs[0]), xs[1..])
  }

  function Iter<T>(f: T -> T, c: T, n: nat): T
    decreases n
  {
    if n == 0 then c else Iter(f, f(c), n - 1)
  }

  function Flatten<B, C>(parts: B -> seq<C>, xs: seq<B>): seq<C>
    decreases |xs|
  {
    if xs == [] then [] else parts(xs[0]) + Flatten(parts, xs[1..])
  }

  ghost predicate Linear<T(!new)>(f: T -> T, add: (T, T) -> T) {
    forall a, b {:trigger f(add(a, b))} :: f(add(a, b)) == add(f(a), f(b))
  }

  ghost predicate Injective<T(!new)>(f: T -> T) {
    forall a, b {:trigger f(a), f(b)} :: f(a) == f(b) ==> a == b
  }

  ghost predicate Associative<T(!new)>(add: (T, T) -> T) {
    forall a, b, c {:trigger add(a, add(b, c))} :: add(a, add(b, c)) == add(add(a, b), c)
  }

  ghost predicate StepInjective<T(!new), B(!new)>(g: (T, B) -> T) {
    forall a, b, e {:trigger g(a, e), g(b, e)} :: g(a, e) == g(b, e) ==> a == b
  }

  /** One step of g is a run of steps of h. */
  ghost predicate RunsOf<T(!new), B(!new), C>(g: (T, B) -> T, h: (T, C) -> T, parts: B -> seq<C>) {
    forall a, e {:trigger g(a, e)} :: g(a, e) == Fold(h, a, parts(e))
  }

  /** h feeds one bit into the register stepped by f. */
  ghost predicate FeedsBit<T(!new)>(f: T -> T, add: (T, T) -> T, bit: bool -> T, h: (T, bool) -> T) {
    forall a, e :: h(a, e) == f(add(a, bit(e)))
  }

  /** A step treats the lowest bit alone and moves the rest down. */
  ghost predicate SplitsLow<T(!new)>(f: T -> T, add: (T, T) -> T, bit: bool -> T, low: T -> bool, down: T -> T) {
    forall a :: f(a) == add(f(bit(low(a))), down(a))
  }

  /** Every word is the sum of its low byte and the rest. */
  ghost predicate SplitsByte<T(!new)>(add: (T, T) -> T, lo: T -> T, hi: T -> T) {
    forall a :: a == add(lo(a), hi(a))
  }

  /** Eight steps move the upper bytes down unchanged. */
  ghost predicate MovesDown<T(!new)>(f: T -> T, hi: T -> T, up: T -> T) {
    forall a :: Iter(f, hi(a), 8) == up(a)
  }

  /** g looks the low byte up in the table of eight steps. */
  ghost predicate TableForm<T(!new), B(!new)>(
    f: T -> T, add: (T, T) -> T, g: (T, B) -> T, val: B -> T, lo: T -> T, up: T -> T)
  {
    forall a, b :: g(a, b) == add(Iter(f, lo(add(a, val(b))), 8), up(a))
  }

  /** Adding a byte does not change the upper bytes. */
  ghost predicate KeepsUpper<T(!new), B(!new)>(add: (T, T) -> T, val: B -> T, up: T -> T) {
    forall a, b :: up(add(a, val(b))) == up(a)
  }

  /** A byte has no bits above its eighth. */
  ghost predicate RunsOut<T(!new), B(!new)>(add: (T, T) -> T, down: T -> T, val: B -> T) {
    forall a, b :: add(a, Iter(down, val(b), 8)) == a
  }

  /** The word of a short message feeds its bytes one after the other. */
  ghost predicate FeedsWord<T(!new), B(!new)>(
    f: T -> T, add: (T, T) -> T, g: (T, B) -> T, word: seq<B> -> T, limit: nat)
  {
    && (forall a :: add(a, word([])) == a)
    && forall a, v {:trigger Iter(f, add(a, word(v)), 8)} | 0 < |v| <= limit ::
         Iter(f, add(a, word(v)), 8) == add(g(a, v[0]), word(v[1..]))
  }

  ghost predicate Unpacks<T, B(!new)>(word: seq<B> -> T, limit: nat) {
    forall s, t {:trigger word(s), word(t)} | 0 < |s| == |t| <= limit && word(s) == word(t) ::
      s[0] == t[0] && word(s[1..]) == word(t[1..])
  }

  lemma {:induction false} IterLinear<T(!new)>(f: T -> T, add: (T, T) -> T, x: T, y: T, n: nat)
    requires Linear(f, add)
    ensures Iter(f, add(x, y), n) == add(Iter(f, x, n), Iter(f, y, n))
    decreases n
  {
    if n > 0 { IterLinear(f, add, f(x), f(y), n - 1); }
  }

  lemma {:induction false} IterAdd<T>(f: T -> T, c: T, m: nat, n: nat)
    ensures Iter(f, Iter(f, c, m), n) == Iter(f, c, m + n)
    decreases m
  {
    if m > 0 { IterAdd(f, f(c), m - 1, n); }
  }

  lemma IterEight<T>(f: T -> T, c: T)
    ensures Iter(f, c, 8) == f(f(f(f(f(f(f(f(c))))))))
  {
    IterAdd(f, c, 4, 4);
  }

  lemma {:induction false} IterInjective<T(!new)>(f: T -> T, x: T, y: T, n: nat)
    requires Injective(f) && Iter(f, x, n) == Iter(f, y, n)
    ensures x == y
    decreases n
  {
    if n > 0 { IterInjective(f, f(x), f(y), n - 1); }
  }

  lemma {:induction false} FoldConcat<T, B>(g: (T, B) -> T, c: T, s: seq<B>, t: seq<B>)
    ensures Fold(g, c, s + t) == Fold(g, Fold(g, c, s), t)
    decreases |s|
  {
    if s == [] {
      assert s + t == t;
    } else {
      assert (s + t)[1..] == s[1..] + t;
      FoldConcat(g, g(c, s[0]), s[1..], t);
    }
  }

  lemma FoldFive<T, B>(g: (T, B) -> T, c: T, s: seq<B>)
    requires |s| == 5
    ensures Fold(g, c, s) == g(g(g(g(g(c, s[0]), s[1]), s[2]), s[3]), s[4])
  {
    assert s == [s[0]] + ([s[1]] + ([s[2]] + ([s[3]] + [s[4]])));
    FoldConcat(g, c, [s[0]], [s[1]] + ([s[2]] + ([s[3]] + [s[4]])));
    FoldConcat(g, g(c, s[0]), [s[1]], [s[2]] + ([s[3]] + [s[4]]));
    FoldConcat(g, g(g(c, s[0]), s[1]), [s[2]], [s[3]] + [s[4]]);
    FoldConcat(g, g(g(g(c, s[0]), s[1]), s[2]), [s[3]], [s[4]]);
  }

  /** For a fixed message the final register determines the initial one. */
  lemma {:induction false} FoldInjective<T(!new), B(!new)>(g: (T, B) -> T, x: T, y: T, xs: seq<B>)
    requires StepInjective(g)
    requires Fold(g, x, xs) == Fold(g, y, xs)
    ensures x == y
    decreases |xs|
  {
    if xs != [] { FoldInjective(g, g(x, xs[0]), g(y, xs[0]), xs[1..]); }
  }

  /** If one big step is a run of small steps, so is a run of big steps. */
  lemma {:induction false} FoldFlatten<T(!new), B(!new), C>(
    g: (T, B) -> T, h: (T, C) -> T, parts: B -> seq<C>, c: T, xs: seq<B>)
    requires RunsOf(g, h, parts)
    ensures Fold(g, c, xs) == Fold(h, c, Flatten(parts, xs))
    decreases |xs|
  {
    if xs != [] {
      FoldConcat(h, c, parts(xs[0]), Flatten(parts, xs[1..]));
      FoldFlatten(g, h, parts, g(c, xs[0]), xs[1..]);
    }
  }

  /** The k low bits of a word, lowest first. */
  function LowBits<T>(low: T -> bool, down: T -> T, b: T, k: nat): (r: seq<bool>)
    ensures |r| == k
    decreases k
  {
    if k == 0 then [] else [low(b)] + LowBits(low, down, down(b), k - 1)
  }

  /** Adding a word and stepping k times feeds its k low bits one at a time and
      leaves what is above them where it is. */
  lemma {:induction false} IterFeedsBits<T(!new)>(
    f: T -> T, add: (T, T) -> T, bit: bool -> T, low: T -> bool, down: T -> T, h: (T, bool) -> T,
    c: T, b: T, k: nat)
    requires Linear(f, add) && Associative(add)
    requires FeedsBit(f, add, bit, h) && SplitsLow(f, add, bit, low, down)
    ensures Iter(f, add(c, b), k) == add(Fold(h, c, LowBits(low, down, b, k)), Iter(down, b, k))
    decreases k
  {
    if k > 0 {
      var e := low(b);
      assert f(add(c, b)) == add(f(c), add(f(bit(e)), down(b))) == add(h(c, e), down(b)) by {
        assert h(c, e) == f(add(c, bit(e))) == add(f(c), f(bit(e)));
      }
      IterFeedsBits(f, add, bit, low, down, h, h(c, e), down(b), k - 1);
      assert LowBits(low, down, b, k)[1..] == LowBits(low, down, down(b), k - 1);
    }
  }

  /** A table lookup is eight steps. */
  lemma TableStepIsIter<T(!new), B(!new)>(
    f: T -> T, add: (T, T) -> T, g: (T, B) -> T, val: B -> T, lo: T -> T, hi: T -> T, up: T -> T, c: T, b: B)
    requires Linear(f, add) && SplitsByte(add, lo, hi) && MovesDown(f, hi, up) && TableForm(f, add, g, val, lo, up)
    requires KeepsUpper(add, val, up)
    ensures g(c, b) == Iter(f, add(c, val(b)), 8)
  {
    var x := add(c, val(b));
    IterLinear(f, add, lo(x), hi(x), 8);
  }

  /** A table lookup feeds the bits of the byte. */
  lemma TableStepFeedsBits<T(!new), B(!new)>(
    f: T -> T, add: (T, T) -> T, g: (T, B) -> T, val: B -> T, lo: T -> T, hi: T -> T, up: T -> T,
    bit: bool -> T, low: T -> bool, down: T -> T, h: (T, bool) -> T, parts: B -> seq<bool>)
    requires Linear(f, add) && SplitsByte(add, lo, hi) && MovesDown(f, hi, up) && TableForm(f, add, g, val, lo, up)
    requires KeepsUpper(add, val, up) && Associative(add)
             && FeedsBit(f, add, bit, h) && SplitsLow(f, add, bit, low, down)
    requires RunsOut(add, down, val) && forall b :: parts(b) == LowBits(low, down, val(b), 8)
    ensures RunsOf(g, h, parts)
  {
    forall c, b ensures g(c, b) == Fold(h, c, parts(b)) {
      TableStepIsIter(f, add, g, val, lo, hi, up, c, b);
      IterFeedsBits(f, add, bit, low, down, h, c, val(b), 8);
    }
  }

  lemma EmptyWord<T(!new), B(!new)>(
    f: T -> T, add: (T, T) -> T, g: (T, B) -> T, word: seq<B> -> T, c: T, limit: nat)
    requires FeedsWord(f, add, g, word, limit)
    ensures Iter(f, add(c, word([])), 0) == c
  {}

  lemma OneByte<T(!new), B(!new)>(
    f: T -> T, add: (T, T) -> T, g: (T, B) -> T, word: seq<B> -> T, c: T, w: seq<B>, limit: nat)
    requires 0 < |w| <= limit && FeedsWord(f, add, g, word, limit)
    ensures Iter(f, add(c, word(w)), 8) == add(g(c, w[0]), word(w[1..]))
  {}

  /** A short message acts like its word, added once and stepped through. */
  lemma {:induction false} FoldOfWord<T(!new), B(!new)>(
    f: T -> T, add: (T, T) -> T, g: (T, B) -> T, word: seq<B> -> T, c: T, w: seq<B>, limit: nat)
    requires |w| <= limit && FeedsWord(f, add, g, word, limit)
    ensures Fold(g, c, w) == Iter(f, add(c, word(w)), 8 * |w|)
    decreases |w|
  {
    hide FeedsWord, Iter;
    if w == [] {
      EmptyWord(f, add, g, word, c, limit);
    } else {
      IterAdd(f, add(c, word(w)), 8, 8 * |w[1..]|);
      OneByte(f, add, g, word, c, w, limit);
      FoldOfWord(f, add, g, word, g(c, w[0]), w[1..], limit);
    }
  }

  lemma {:induction false} WordDetermines<T, B(!new)>(word: seq<B> -> T, v: seq<B>, w: seq<B>, limit: nat)
    requires |v| == |w| <= limit && word(v) == word(w) && Unpacks(word, limit)
    ensures v == w
    decreases |v|
  {
    if v != [] {
      WordDetermines(word, v[1..], w[1..], limit);
      assert v == [v[0]] + v[1..] && w == [w[0]] + w[1..];
    }
  }

  lemma FeedsWordAt<T(!new), B>(
    f: T -> T, add: (T, T) -> T, g: (T, B) -> T, val: B -> T, c: T, b: B, word: T, up: T, rest: T)
    requires Linear(f, add) && Associative(add)
    requires word == add(val(b), up) && Iter(f, up, 8) == rest
    requires g(c, b) == Iter(f, add(c, val(b)), 8)
    ensures Iter(f, add(c, word), 8) == add(g(c, b), rest)
  {
    assert add(c, add(val(b), up)) == add(add(c, val(b)), up);
    IterLinear(f, add, add(c, val(b)), up, 8);
  }

  ghost predicate Cancels<T(!new)>(add: (T, T) -> T) {
    forall c, x, y {:trigger add(c, x), add(c, y)} :: add(c, x) == add(c, y) ==> x == y
  }

  /** Messages that differ only within a short window end in different registers. */
  lemma WindowDetected<T(!new), B(!new)>(
    f: T -> T, add: (T, T) -> T, g: (T, B) -> T, word: seq<B> -> T, limit: nat,
    c: T, pre: seq<B>, v: seq<B>, w: seq<B>, post: seq<B>)
    requires Injective(f) && Cancels(add) && StepInjective(g)
    requires FeedsWord(f, add, g, word, limit) && Unpacks(word, limit)
    requires |v| == |w| <= limit
    requires Fold(g, c, pre + v + post) == Fold(g, c, pre + w + post)
    ensures v == w
  {
    FoldConcat(g, c, pre + v, post);
    FoldConcat(g, c, pre + w, post);
    FoldConcat(g, c, pre, v);
    FoldConcat(g, c, pre, w);
    var m := Fold(g, c, pre);
    FoldInjective(g, Fold(g, m, v), Fold(g, m, w), post);
    FoldOfWord(f, add, g, word, m, v, limit);
    FoldOfWord(f, add, g, word, m, w, limit);
    IterInjective(f, add(m, word(v)), add(m, word(w)), 8 * |v|);
    WordDetermines(word, v, w, limit);
  }
}
