/** Random names: a sampler that cuts each 63-bit draw into ten 6-bit chunks,
  * rejects the chunks that are no letter, and fills its buffer from the back.
  */
module RandomStrings {

  const SMALL := "abcdefghijklmnopqrstuvwxyz"
  const CAPITAL := "ABCDEFGHIJKLMNOPQRSTUVWXYZ"
  const LETTERS := SMALL + CAPITAL

  /** Values of a chunk, and chunks in a draw. */
  const BASE: nat := 64
  const PER_DRAW: nat := 10

  lemma SmallTells(k: nat)
    requires k < 26
    ensures |SMALL| == 26 && SMALL[k] as int == 'a' as int + k
  {
    assert k == 0 || k == 1 || k == 2 || k == 3 || k == 4 || k == 5 || k == 6 || k == 7 || k == 8 || k == 9 || k == 10
      || k == 11 || k == 12 || k == 13 || k == 14 || k == 15 || k == 16 || k == 17 || k == 18 || k == 19 || k == 20
      || k == 21 || k == 22 || k == 23 || k == 24 || k == 25;
  }

  lemma CapitalTells(k: nat)
    requires k < 26
    ensures |CAPITAL| == 26 && CAPITAL[k] as int == 'A' as int + k
  {
    assert k == 0 || k == 1 || k == 2 || k == 3 || k == 4 || k == 5 || k == 6 || k == 7 || k == 8 || k == 9 || k == 10
      || k == 11 || k == 12 || k == 13 || k == 14 || k == 15 || k == 16 || k == 17 || k == 18 || k == 19 || k == 20
      || k == 21 || k == 22 || k == 23 || k == 24 || k == 25;
  }

  /** The letters are the small ones and then the capital ones, in order. */
  lemma LettersTell(i: nat)
    requires i < |LETTERS|
    ensures |LETTERS| == 52
    ensures LETTERS[i] as int == if i < 26 then 'a' as int + i else 'A' as int + i - 26
  {
    SmallTells(if i < 26 then i else 0);
    CapitalTells(if i < 26 then 0 else i - 26);
  }

  /** No letter occurs twice. */
  lemma LettersDiffer(i: nat, j: nat)
    requires i < |LETTERS| && j < |LETTERS|
    ensures LETTERS[i] == LETTERS[j] <==> i == j
  {
    LettersTell(i);
    LettersTell(j);
  }

  function Draw(draws: nat -> nat, i: nat): nat {
    draws(i)
  }

  /** The random source: an endless stream of draws, and how many were taken. */
  class Source {
    const draws: nat -> nat
    var taken: nat

    constructor (draws: nat -> nat)
      ensures this.draws == draws && taken == 0
    {
      this.draws, taken := draws, 0;
    }

    method Int63() returns (x: nat)
      modifies this
      ensures taken == old(taken) + 1 && x == Draw(draws, old(taken))
    {
      x := Draw(draws, taken);
      taken := taken + 1;
    }
  }

  function Pow(e: nat): (p: nat)
    ensures p >= 1
  {
    if e == 0 then 1 else BASE * Pow(e - 1)
  }

  /** A draw with its `k` low chunks shifted out. */
  function Shifted(draw: nat, k: nat): nat {
    draw / Pow(k)
  }

  /** Chunk `k` of a draw, counted from its low bits. */
  function ChunkOf(draw: nat, k: nat): (c: nat)
    ensures c < BASE
  {
    Shifted(draw, k) % BASE
  }

  /** The first `m` chunks of the stream that starts at draw number `from`. */
  function Stream(draws: nat -> nat, from: nat, m: nat): (w: seq<nat>)
    ensures |w| == m
    ensures forall j :: 0 <= j < m ==> w[j] == ChunkOf(Draw(draws, from + j / PER_DRAW), j % PER_DRAW)
  {
    seq(m, j requires 0 <= j < m => ChunkOf(Draw(draws, from + j / PER_DRAW), j % PER_DRAW))
  }

  /** The chunks that are letters, in order. */
  function Accepted(w: seq<nat>): (a: seq<nat>)
    ensures |a| <= |w| && forall i :: 0 <= i < |a| ==> a[i] < |LETTERS|
  {
    if w == [] then []
    else if w[0] < |LETTERS| then [w[0]] + Accepted(w[1..])
    else Accepted(w[1..])
  }

  lemma {:induction false} AcceptedAppend(v: seq<nat>, w: seq<nat>)
    ensures Accepted(v + w) == Accepted(v) + Accepted(w)
    decreases |v|
  {
    if v == [] {
      assert v + w == w;
    } else {
      assert (v + w)[1..] == v[1..] + w;
      AcceptedAppend(v[1..], w);
    }
  }

  /** A longer part of the stream only adds letters at the end. */
  lemma AcceptedPrefix(draws: nat -> nat, from: nat, m: nat, m': nat)
    requires m <= m'
    ensures Accepted(Stream(draws, from, m)) <= Accepted(Stream(draws, from, m'))
  {
    var v, w := Stream(draws, from, m), Stream(draws, from, m');
    assert w == v + w[m..];
    AcceptedAppend(v, w[m..]);
  }

  /** Shifting out chunk `k` brings up the next one. */
  lemma ShiftOut(draw: nat, k: nat)
    ensures Shifted(draw, k) / BASE == Shifted(draw, k + 1)
    ensures Shifted(draw, k) % BASE == ChunkOf(draw, k)
    ensures Shifted(draw, 0) == draw
  {
    var p, q := Pow(k), draw / Pow(k);
    var t, s, r := q / 64, q % 64, draw % p;
    assert draw == p * q + r;
    Spread(p, 64 * t, s);
    assert p * (64 * t) == (64 * p) * t;
    Below(p, s, r);
    Quotient(draw, 64 * p, t, p * s + r);
  }

  lemma Spread(p: int, a: int, b: int)
    ensures p * (a + b) == p * a + p * b
  { }

  lemma Below(p: nat, s: nat, r: nat)
    requires s < 64 && r < p
    ensures p * s + r < 64 * p
  {
    Spread(p, s, 63 - s);
    assert p * (63 - s) >= 0;
  }

  lemma Small(d: int, k: int, e: int)
    requires 0 < d && d * k == e && -d < e < d
    ensures k == 0
  {
    Spread(d, 1, k - 1);
    Spread(d, -1, k + 1);
    assert k >= 1 ==> d * (k - 1) >= 0;
    assert k <= -1 ==> d * (k + 1) <= 0;
  }

  lemma Quotient(x: nat, d: nat, q: nat, r: nat)
    requires d > 0 && x == d * q + r && r < d
    ensures x / d == q
  {
    var a, b := x / d, x % d;
    assert x == d * a + b;
    Spread(d, a, 0 - q);
    assert d * (0 - q) == 0 - d * q;
    Small(d, a - q, r - b);
  }

  /** Letter number k of the stream ends up at position n - 1 - k. The loop ends on
    * every stream that holds n letters: `horizon` bounds where the n-th one is, and
    * the distance to it decreases. `used` counts the chunks looked at.
    */
  method RandomString(src: Source, n: nat, ghost horizon: nat) returns (text: string, ghost used: nat)
    requires n <= |Accepted(Stream(src.draws, src.taken, horizon))|
    modifies src
    ensures |text| == n
    ensures forall k :: 0 <= k < n ==>
      text[n - 1 - k] == LETTERS[Accepted(Stream(src.draws, old(src.taken), horizon))[k]]
    ensures used <= horizon && |Accepted(Stream(src.draws, old(src.taken), used))| == n
    ensures n > 0 ==> used > 0 && |Accepted(Stream(src.draws, old(src.taken), used - 1))| == n - 1
    ensures src.taken == old(src.taken) + if n == 0 then 1 else (used + PER_DRAW - 1) / PER_DRAW
  {
    hide Draw, Accepted, Stream, Shifted, ChunkOf, LETTERS;
    var b := new char[n];
    var i: int := n - 1;
    var cache := src.Int63();
    var remain := PER_DRAW;
    ShiftOut(cache, 0);
    used := 0;
    ghost var draws, from := src.draws, old(src.taken);
    ghost var found, before: seq<nat> := Accepted(Stream(draws, from, 0)), [];
    NoneAccepted(draws, from);
    while i >= 0
      invariant -1 <= i < n && 0 <= remain <= 10 && used <= horizon
      invariant used + remain == 10 * (src.taken - from) && src.taken > from
      invariant cache == Shifted(Draw(draws, src.taken - 1), 10 - remain)
      invariant found == Accepted(Stream(draws, from, used)) && |found| == n - 1 - i
      invariant forall j :: i < j < n ==> b[j] == LETTERS[found[n - 1 - j]]
      invariant used > 0 ==> before == Accepted(Stream(draws, from, used - 1))
      invariant n > 0 || (used == 0 && remain == 10)
      invariant i < 0 && n > 0 ==> remain < 10 && used > 0 && |before| == n - 1
      decreases horizon - used
    {
      Enough(draws, from, used, horizon);
      if remain == 0 {
        cache := src.Int63();
        remain := PER_DRAW;
        ShiftOut(cache, 0);
      }
      var idx := cache % BASE;
      ShiftOut(Draw(draws, src.taken - 1), 10 - remain);
      StreamStep(draws, from, used, src.taken - from, remain);
      before, found := found, found + if idx < |LETTERS| then [idx] else [];
      if idx < |LETTERS| {
        b[i] := LETTERS[idx];
        i := i - 1;
      }
      cache := cache / BASE;
      remain := remain - 1;
      used := used + 1;
    }
    Enough(draws, from, used, horizon);
    if n > 0 {
      DrawsFor(used, remain, src.taken - from);
    }
    text := b[..];
  }

  /** The last draw is the one the last chunk came from. */
  lemma DrawsFor(used: nat, remain: nat, taken: nat)
    requires used + remain == 10 * taken && remain < 10
    ensures (used + PER_DRAW - 1) / PER_DRAW == taken
  { }

  lemma NoneAccepted(draws: nat -> nat, from: nat)
    ensures Accepted(Stream(draws, from, 0)) == []
  { }

  lemma Enough(draws: nat -> nat, from: nat, used: nat, horizon: nat)
    requires used <= horizon
    ensures |Accepted(Stream(draws, from, used))| <= |Accepted(Stream(draws, from, horizon))|
    ensures forall k :: 0 <= k < |Accepted(Stream(draws, from, used))| ==>
      Accepted(Stream(draws, from, used))[k] == Accepted(Stream(draws, from, horizon))[k]
  {
    AcceptedPrefix(draws, from, used, horizon);
  }

  /** The next chunk of the stream is the low one of the cache. */
  lemma StreamStep(draws: nat -> nat, from: nat, used: nat, taken: nat, remain: nat)
    requires 0 < remain <= PER_DRAW && taken > 0 && used + remain == PER_DRAW * taken
    ensures var c := ChunkOf(Draw(draws, from + taken - 1), PER_DRAW - remain);
      && Stream(draws, from, used + 1) == Stream(draws, from, used) + [c]
      && Accepted(Stream(draws, from, used + 1))
         == Accepted(Stream(draws, from, used)) + if c < |LETTERS| then [c] else []
  {
    var c := ChunkOf(Draw(draws, from + taken - 1), PER_DRAW - remain);
    assert used / PER_DRAW == taken - 1 && used % PER_DRAW == PER_DRAW - remain;
    assert Stream(draws, from, used + 1) == Stream(draws, from, used) + [c];
    AcceptedAppend(Stream(draws, from, used), [c]);
    assert Accepted([c]) == if c < |LETTERS| then [c] else [];
  }
}
