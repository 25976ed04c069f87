/** Byte-fed linear shift registers in general: what follows from the algebra, whatever the register holds. */
module Register {
  type byte = bv8

  /**
   * A register: `xor` adds two of them, `shift` drops the lowest bit, `low` reads it, `poly` is added when
   * it was set, `inject` widens a byte, `up` makes room for a byte below, and `fits(w, k)` says that w uses
   * at most its k lowest bytes.
   */
  datatype Ops<!R> = Ops(xor: (R, R) -> R, shift: R -> R, low: R -> bool, poly: R, zero: R,
                         inject: byte -> R, up: R -> R, fits: (R, nat) -> bool)

  /** One bit of the register. */
  function Step<R>(r: Ops<R>, c: R): R {
    if r.low(c) then r.xor(r.shift(c), r.poly) else r.shift(c)
  }

  /** `n` bits of the register. */
  function Steps<R>(r: Ops<R>, c: R, n: nat): R
    decreases n
  {
    if n == 0 then c else Steps(r, Step(r, c), n - 1)
  }

  function Absorb<R>(r: Ops<R>, c: R, b: byte): R {
    Steps(r, r.xor(c, r.inject(b)), 8)
  }

  /** The register after the bytes `s`, started from `c`. */
  function Feed<R>(r: Ops<R>, c: R, s: seq<byte>): R
    decreases |s|
  {
    if s == [] then c else Feed(r, Absorb(r, c, s[0]), s[1..])
  }

  /** v shifted down by n bits. */
  function Down<R>(r: Ops<R>, v: R, n: nat): R
    decreases n
  {
    if n == 0 then v else Down(r, r.shift(v), n - 1)
  }

  /** The n lowest bits of v are zero. */
  predicate Clear<R>(r: Ops<R>, v: R, n: nat)
    decreases n
  {
    n == 0 || (!r.low(v) && Clear(r, r.shift(v), n - 1))
  }

  function Pack<R>(r: Ops<R>, b: byte, w: R): R {
    r.xor(r.inject(b), r.up(w))
  }

  /** Bytes packed into one register value, the first one lowest. */
  function Word<R>(r: Ops<R>, s: seq<byte>): R
    decreases |s|
  {
    if s == [] then r.zero else Pack(r, s[0], Word(r, s[1..]))
  }

  // The laws a register must satisfy.

  ghost predicate ZeroKeeps<R(!new)>(r: Ops<R>) {
    forall c :: r.xor(c, r.zero) == c
  }

  ghost predicate Adds<R(!new)>(r: Ops<R>) {
    && ZeroKeeps(r)
    && (forall c, v, w :: r.xor(c, v) == r.xor(c, w) ==> v == w)
    && (forall v, w, c :: r.xor(v, c) == r.xor(w, c) ==> v == w)
  }

  ghost predicate Regroups<R(!new)>(r: Ops<R>) {
    && (forall a, b, c :: r.xor(a, r.xor(b, c)) == r.xor(r.xor(a, b), c))
    && (forall a, b, c :: r.xor(r.xor(a, b), c) == r.xor(r.xor(a, c), b))
  }

  ghost predicate Linear<R(!new)>(r: Ops<R>) {
    && (forall a, b :: r.shift(r.xor(a, b)) == r.xor(r.shift(a), r.shift(b)))
    && (forall a, b :: !r.low(b) ==> (r.low(r.xor(a, b)) <==> r.low(a)))
  }

  ghost predicate Reversible<R(!new)>(r: Ops<R>) {
    forall a, b :: Step(r, a) == Step(r, b) ==> a == b
  }

  ghost predicate Packs<R(!new)>(r: Ops<R>) {
    && r.fits(r.zero, 0)
    && (forall b, w, k: nat :: k < 4 && r.fits(w, k) ==> r.fits(Pack(r, b, w), k + 1))
    && (forall w, k: nat :: k <= 3 && r.fits(w, k) ==> r.fits(w, 3))
    && (forall a, v, b, w :: r.fits(v, 3) && r.fits(w, 3) && Pack(r, a, v) == Pack(r, b, w) ==> a == b && v == w)
  }

  ghost predicate MakesRoom<R(!new)>(r: Ops<R>) {
    forall w :: r.fits(w, 3) ==> Clear(r, r.up(w), 8) && Down(r, r.up(w), 8) == w
  }

  // What a window proof needs of them.

  ghost predicate StepsMoves<R(!new)>(r: Ops<R>) {
    forall x, v :: !r.low(v) ==> Step(r, r.xor(x, v)) == r.xor(Step(r, x), r.shift(v))
  }

  ghost predicate AbsorbMoves<R(!new)>(r: Ops<R>) {
    forall c, b, w :: r.fits(w, 3) ==> Steps(r, r.xor(c, Pack(r, b, w)), 8) == r.xor(Absorb(r, c, b), w)
  }

  ghost predicate Lawful<R(!new)>(r: Ops<R>) {
    Adds(r) && Reversible(r) && Packs(r) && AbsorbMoves(r)
  }

  /** What sits above a clear bit is moved down by a step and otherwise left alone. */
  lemma StepMoves<R(!new)>(r: Ops<R>)
    requires Linear(r) && Regroups(r)
    ensures StepsMoves(r)
  {
    forall x, v | !r.low(v) ensures Step(r, r.xor(x, v)) == r.xor(Step(r, x), r.shift(v)) {
      assert r.shift(r.xor(x, v)) == r.xor(r.shift(x), r.shift(v));
      assert r.xor(r.xor(r.shift(x), r.shift(v)), r.poly) == r.xor(r.xor(r.shift(x), r.poly), r.shift(v));
    }
  }

  lemma {:induction false} ClearMoves<R(!new)>(r: Ops<R>, x: R, v: R, n: nat)
    requires StepsMoves(r) && Clear(r, v, n)
    ensures Steps(r, r.xor(x, v), n) == r.xor(Steps(r, x, n), Down(r, v, n))
    decreases n
  {
    if n > 0 {
      assert Step(r, r.xor(x, v)) == r.xor(Step(r, x), r.shift(v));
      ClearMoves(r, Step(r, x), r.shift(v), n - 1);
    }
  }

  lemma PackRegroups<R(!new)>(r: Ops<R>, c: R, b: byte, w: R)
    requires Regroups(r)
    ensures r.xor(c, Pack(r, b, w)) == r.xor(r.xor(c, r.inject(b)), r.up(w))
  {}

  /** Bytes not yet consumed ride above the one being consumed. */
  lemma BytesMove<R(!new)>(r: Ops<R>)
    requires StepsMoves(r) && Regroups(r) && MakesRoom(r)
    ensures AbsorbMoves(r)
  {
    forall c, b, w | r.fits(w, 3) ensures Steps(r, r.xor(c, Pack(r, b, w)), 8) == r.xor(Absorb(r, c, b), w) {
      BytesMoveAt(r, c, b, w);
    }
  }

  lemma BytesMoveAt<R(!new)>(r: Ops<R>, c: R, b: byte, w: R)
    requires StepsMoves(r) && Regroups(r) && MakesRoom(r) && r.fits(w, 3)
    ensures Steps(r, r.xor(c, Pack(r, b, w)), 8) == r.xor(Absorb(r, c, b), w)
  {
    PackRegroups(r, c, b, w);
    ClearMoves(r, r.xor(c, r.inject(b)), r.up(w), 8);
  }

  lemma {:induction false} StepsInjective<R(!new)>(r: Ops<R>, a: R, b: R, n: nat)
    requires Reversible(r)
    requires Steps(r, a, n) == Steps(r, b, n)
    ensures a == b
    decreases n
  {
    if n > 0 {
      StepsInjective(r, Step(r, a), Step(r, b), n - 1);
    }
  }

  lemma {:induction false} StepsCompose<R>(r: Ops<R>, c: R, m: nat, n: nat)
    ensures Steps(r, Steps(r, c, m), n) == Steps(r, c, m + n)
    decreases m
  {
    if m > 0 {
      StepsCompose(r, Step(r, c), m - 1, n);
    }
  }

  lemma EightSteps<R>(r: Ops<R>, c0: R, c1: R, c2: R, c3: R, c4: R, c5: R, c6: R, c7: R, c8: R)
    requires Step(r, c0) == c1 && Step(r, c1) == c2 && Step(r, c2) == c3 && Step(r, c3) == c4
    requires Step(r, c4) == c5 && Step(r, c5) == c6 && Step(r, c6) == c7 && Step(r, c7) == c8
    ensures Steps(r, c0, 8) == c8
  {
    assert Steps(r, c6, 2) == c8;
    assert Steps(r, c4, 4) == c8;
    assert Steps(r, c2, 6) == c8;
  }

  lemma {:induction false} FeedConcat<R>(r: Ops<R>, c: R, s: seq<byte>, t: seq<byte>)
    ensures Feed(r, c, s + t) == Feed(r, Feed(r, c, s), t)
    decreases |s|
  {
    if s == [] {
      assert s + t == t;
    } else {
      assert (s + t)[1..] == s[1..] + t;
      FeedConcat(r, Absorb(r, c, s[0]), s[1..], t);
    }
  }

  /** Feeding the same bytes never merges two different registers. */
  lemma {:induction false} FeedInjective<R(!new)>(r: Ops<R>, a: R, b: R, s: seq<byte>)
    requires Adds(r) && Reversible(r)
    requires Feed(r, a, s) == Feed(r, b, s)
    ensures a == b
    decreases |s|
  {
    if s != [] {
      var x := r.inject(s[0]);
      FeedInjective(r, Absorb(r, a, s[0]), Absorb(r, b, s[0]), s[1..]);
      StepsInjective(r, r.xor(a, x), r.xor(b, x), 8);
      assert r.xor(a, x) == r.xor(b, x);
    }
  }

  lemma {:induction false} WordFits<R(!new)>(r: Ops<R>, s: seq<byte>)
    requires Packs(r) && |s| <= 4
    ensures r.fits(Word(r, s), |s|)
    decreases |s|
  {
    if s != [] {
      var b, w := s[0], Word(r, s[1..]);
      WordFits(r, s[1..]);
      assert r.fits(Pack(r, b, w), |s[1..]| + 1);
    }
  }

  lemma {:induction false} WordInjective<R(!new)>(r: Ops<R>, s: seq<byte>, t: seq<byte>)
    requires Packs(r) && |s| == |t| <= 4
    requires Word(r, s) == Word(r, t)
    ensures s == t
    decreases |s|
  {
    if s != [] {
      WordFits(r, s[1..]);
      WordFits(r, t[1..]);
      var a, v, b, w := s[0], Word(r, s[1..]), t[0], Word(r, t[1..]);
      assert r.fits(v, 3) && r.fits(w, 3);
      assert Pack(r, a, v) == Pack(r, b, w);
      WordInjective(r, s[1..], t[1..]);
      assert s == [s[0]] + s[1..] && t == [t[0]] + t[1..];
    }
  }

  lemma WordMoves<R(!new)>(r: Ops<R>, c: R, b: byte, w: R, n: nat)
    requires AbsorbMoves(r) && r.fits(w, 3)
    ensures Steps(r, r.xor(Absorb(r, c, b), w), n) == Steps(r, r.xor(c, Pack(r, b, w)), 8 + n)
  {
    assert Steps(r, r.xor(c, Pack(r, b, w)), 8) == r.xor(Absorb(r, c, b), w);
    StepsCompose(r, r.xor(c, Pack(r, b, w)), 8, n);
  }

  lemma FeedMore<R(!new)>(r: Ops<R>, c: R, s: seq<byte>)
    requires AbsorbMoves(r) && s != [] && r.fits(Word(r, s[1..]), 3)
    requires FeedsAsWord(r, Absorb(r, c, s[0]), s[1..])
    ensures FeedsAsWord(r, c, s)
  {
    WordMoves(r, c, s[0], Word(r, s[1..]), 8 * |s[1..]|);
    assert 8 + 8 * |s[1..]| == 8 * |s|;
  }

  /** Feeding s to the register is adding its word and taking eight steps a byte. */
  ghost predicate FeedsAsWord<R>(r: Ops<R>, c: R, s: seq<byte>) {
    Feed(r, c, s) == Steps(r, r.xor(c, Word(r, s)), 8 * |s|)
  }

  /** The word of up to three bytes leaves room for a fourth. */
  ghost predicate WordsFit<R(!new)>(r: Ops<R>) {
    forall t {:trigger Word(r, t)} :: |t| <= 3 ==> r.fits(Word(r, t), 3)
  }

  lemma AllWordsFit<R(!new)>(r: Ops<R>)
    requires Lawful(r)
    ensures WordsFit(r)
  {
    forall t: seq<byte> | |t| <= 3 ensures r.fits(Word(r, t), 3) {
      WordFits(r, t);
    }
  }

  /** Up to four bytes act on the register like their word. */
  lemma {:induction false} FeedIsSteps<R(!new)>(r: Ops<R>, c: R, s: seq<byte>)
    requires AbsorbMoves(r) && WordsFit(r) && ZeroKeeps(r) && |s| <= 4
    ensures FeedsAsWord(r, c, s)
    decreases |s|
  {
    if s != [] {
      FeedIsSteps(r, Absorb(r, c, s[0]), s[1..]);
      FeedMore(r, c, s);
    }
  }

  /** Different windows of at most four bytes leave different registers. */
  lemma FeedWindow<R(!new)>(r: Ops<R>, c: R, s: seq<byte>, t: seq<byte>)
    requires Lawful(r) && |s| == |t| <= 4
    requires Feed(r, c, s) == Feed(r, c, t)
    ensures s == t
  {
    AllWordsFit(r);
    FeedIsSteps(r, c, s);
    FeedIsSteps(r, c, t);
    StepsInjective(r, r.xor(c, Word(r, s)), r.xor(c, Word(r, t)), 8 * |s|);
    WordInjective(r, s, t);
  }

  /** p and q have one length and differ, and only inside the four adjacent positions from `at`. */
  ghost predicate DifferInWindow(p: seq<byte>, q: seq<byte>, at: nat) {
    |p| == |q| && p != q && forall j :: 0 <= j < |p| && !(at <= j < at + 4) ==> p[j] == q[j]
  }

  lemma WindowBehind(header: seq<byte>, p: seq<byte>, file: seq<byte>, at: nat)
    requires |header| <= at && DifferInWindow(header + p, file, at)
    ensures file == header + file[|header|..]
    ensures DifferInWindow(p, file[|header|..], at - |header|)
  {
    var f, n, q := header + p, |header|, file[|header|..];
    assert forall j :: 0 <= j < n ==> f[j] == header[j];
    assert forall j :: 0 <= j < |q| ==> q[j] == file[n + j] && p[j] == f[n + j];
    assert p == q ==> file == f;
  }

  /** A change confined to four adjacent bytes always shows in the register. */
  lemma BurstShows<R(!new)>(r: Ops<R>, c: R, p: seq<byte>, q: seq<byte>, at: nat)
    requires Lawful(r)
    requires DifferInWindow(p, q, at)
    ensures Feed(r, c, p) != Feed(r, c, q)
  {
    var from := if at <= |p| then at else |p|;
    var to := if at + 4 <= |p| then at + 4 else |p|;
    var a, b, b', z := p[..from], p[from..to], q[from..to], p[to..];
    assert p == (a + b) + z;
    assert q[..from] == a && q[to..] == z;
    assert q == (a + b') + z;
    if Feed(r, c, p) == Feed(r, c, q) {
      FeedConcat(r, c, a + b, z);
      FeedConcat(r, c, a + b', z);
      FeedInjective(r, Feed(r, c, a + b), Feed(r, c, a + b'), z);
      FeedConcat(r, c, a, b);
      FeedConcat(r, c, a, b');
      FeedWindow(r, Feed(r, c, a), b, b');
      assert false;
    }
  }
}
