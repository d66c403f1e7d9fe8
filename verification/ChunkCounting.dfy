/** Why the sampler favours no string: counting chunk sequences and draws. */
module ChunkCounting {
  import opened RandomStrings

  /** A sequence of `m` chunks. */
  predicate IsWord(w: seq<nat>, m: nat) {
    |w| == m && forall i :: 0 <= i < |w| ==> w[i] < BASE
  }

  /** The letters of a string, by their index. */
  predicate IsString(s: seq<nat>) {
    forall i :: 0 <= i < |s| ==> s[i] < |LETTERS|
  }

  /** The first accepted chunks of `w` spell `s`. */
  predicate Spells(w: seq<nat>, s: seq<nat>) {
    s <= Accepted(w)
  }

  /** The chunks `c :: w` for the words in `tails`. */
  function Prepend(c: nat, tails: set<seq<nat>>): set<seq<nat>> {
    set w | w in tails :: [c] + w
  }

  lemma PrependSize(c: nat, tails: set<seq<nat>>)
    ensures |Prepend(c, tails)| == |tails|
    decreases |tails|
  {
    if tails != {} {
      var w :| w in tails;
      var rest := tails - {w};
      PrependSize(c, rest);
      forall v | v in rest ensures [c] + v != [c] + w {
        assert ([c] + v)[1..] == v && ([c] + w)[1..] == w;
      }
      assert Prepend(c, tails) == Prepend(c, rest) + {[c] + w};
    }
  }

  /** All words of `m` chunks. */
  function Words(m: nat): (words: set<seq<nat>>)
    ensures forall w :: w in words <==> IsWord(w, m)
  {
    if m == 0 then {[]}
    else
      var words := set c: nat, w | c < BASE && w in Words(m - 1) :: [c] + w;
      assert forall w :: IsWord(w, m) ==> [w[0]] + w[1..] == w && IsWord(w[1..], m - 1);
      words
  }

  /** The words of `m` chunks that spell `s`. */
  function Spelling(m: nat, s: seq<nat>): set<seq<nat>> {
    set w | w in Words(m) && Spells(w, s)
  }

  /** Those whose first chunk is below `bound`. */
  function Below(m: nat, s: seq<nat>, bound: nat): set<seq<nat>> {
    set w | w in Spelling(m, s) && w != [] && w[0] < bound
  }

  /** The words that spell `s` and start with chunk `c`. */
  function StartingWith(m: nat, s: seq<nat>, c: nat): set<seq<nat>>
    requires m > 0
  {
    if c >= |LETTERS| || s == [] then Prepend(c, Spelling(m - 1, s))
    else if c == s[0] then Prepend(c, Spelling(m - 1, s[1..]))
    else {}
  }

  lemma SpellsOn(c: nat, w: seq<nat>, s: seq<nat>)
    ensures Spells([c] + w, s) <==>
      if c >= |LETTERS| || s == [] then Spells(w, s) else c == s[0] && Spells(w, s[1..])
  {
    assert ([c] + w)[1..] == w;
    if c < |LETTERS| && s != [] {
      assert Accepted([c] + w) == [c] + Accepted(w);
      assert s == [s[0]] + s[1..];
      if c == s[0] && Spells(w, s[1..]) {
        assert Accepted([c] + w)[..|s|] == s;
      }
    }
  }

  lemma BelowStep(m: nat, s: seq<nat>, c: nat)
    requires m > 0 && c < BASE
    ensures Below(m, s, c + 1) == Below(m, s, c) + StartingWith(m, s, c)
    ensures Below(m, s, c) !! StartingWith(m, s, c)
  {
    forall w | IsWord(w, m) && w[0] == c
      ensures w in Below(m, s, c + 1) <==> w in StartingWith(m, s, c)
    {
      var tail := w[1..];
      assert w == [c] + tail && IsWord(tail, m - 1);
      SpellsOn(c, tail, s);
      if w in StartingWith(m, s, c) {
        var v :| w == [c] + v && (v in Spelling(m - 1, s) || (s != [] && v in Spelling(m - 1, s[1..])));
        assert v == tail;
      }
    }
    forall w | w in StartingWith(m, s, c) ensures IsWord(w, m) && w[0] == c { }
  }

  // --- the count

  /** How many words of `m` chunks spell a string of `n` letters, whichever it is:
    * 12 of the 64 values of the first chunk are no letter, one is the right letter.
    */
  function Ways(m: nat, n: nat): nat {
    if n == 0 then Pow(m)
    else if m == 0 then 0
    else (BASE - |LETTERS|) * Ways(m - 1, n) + Ways(m - 1, n - 1)
  }

  /** The words starting below `bound`, counted by their first chunk. */
  function WaysBelow(m: nat, s: seq<nat>, bound: nat): nat
    requires m > 0
  {
    if s == [] then bound * Pow(m - 1)
    else
      (if bound > s[0] then Ways(m - 1, |s| - 1) else 0)
      + (if bound > |LETTERS| then bound - |LETTERS| else 0) * Ways(m - 1, |s|)
  }

  lemma {:induction false} BelowCount(m: nat, s: seq<nat>, bound: nat)
    requires m > 0 && bound <= BASE && IsString(s)
    requires |Spelling(m - 1, s)| == Ways(m - 1, |s|)
    requires s != [] ==> |Spelling(m - 1, s[1..])| == Ways(m - 1, |s| - 1)
    ensures |Below(m, s, bound)| == WaysBelow(m, s, bound)
    decreases bound
  {
    if bound == 0 {
      assert Below(m, s, 0) == {};
    } else {
      var c := bound - 1;
      BelowCount(m, s, c);
      BelowStep(m, s, c);
      StartingCount(m, s, c);
      WaysBelowStep(m, s, c);
      hide Below, StartingWith, WaysBelow, Ways, Pow, Spelling;
    }
  }

  function WaysStarting(m: nat, s: seq<nat>, c: nat): nat
    requires m > 0
  {
    if s == [] then Pow(m - 1)
    else if c >= |LETTERS| then Ways(m - 1, |s|)
    else if c == s[0] then Ways(m - 1, |s| - 1) else 0
  }

  lemma StartingCount(m: nat, s: seq<nat>, c: nat)
    requires m > 0 && |Spelling(m - 1, s)| == Ways(m - 1, |s|)
    requires s != [] ==> |Spelling(m - 1, s[1..])| == Ways(m - 1, |s| - 1)
    ensures |StartingWith(m, s, c)| == WaysStarting(m, s, c)
  {
    PrependSize(c, Spelling(m - 1, s));
    if s != [] {
      PrependSize(c, Spelling(m - 1, s[1..]));
    }
    hide Spelling, Prepend;
  }

  lemma WaysBelowStep(m: nat, s: seq<nat>, c: nat)
    requires m > 0 && IsString(s)
    ensures WaysBelow(m, s, c + 1) == WaysBelow(m, s, c) + WaysStarting(m, s, c)
  {
    Distribute(c, Pow(m - 1));
    if s != [] && c >= |LETTERS| {
      Distribute(c - |LETTERS|, Ways(m - 1, |s|));
    }
  }

  lemma Distribute(a: nat, b: nat)
    ensures (a + 1) * b == a * b + b
  { }

  /** The number of chunk words that spell a string depends on its length alone. */
  lemma {:induction false} SpellingCount(m: nat, s: seq<nat>)
    requires IsString(s)
    ensures |Spelling(m, s)| == Ways(m, |s|)
    decreases m
  {
    if m == 0 {
      assert Spelling(0, s) == if s == [] then {[]} else {};
    } else {
      SpellingCount(m - 1, s);
      if s != [] {
        SpellingCount(m - 1, s[1..]);
      }
      BelowCount(m, s, BASE);
      assert Below(m, s, BASE) == Spelling(m, s);
    }
  }

  /** No bias: any two strings of one length are spelled by equally many chunk sequences, of every length. */
  lemma NoBias(m: nat, s: seq<nat>, t: seq<nat>)
    requires IsString(s) && IsString(t) && |s| == |t|
    ensures |Spelling(m, s)| == |Spelling(m, t)|
  {
    SpellingCount(m, s);
    SpellingCount(m, t);
  }

  // --- chunks of one draw

  /** The low `k` chunks of a draw. */
  function ChunksOf(draw: nat, k: nat): (w: seq<nat>)
    ensures IsWord(w, k)
  {
    seq(k, i requires 0 <= i < k => ChunkOf(draw, i))
  }

  /** The number whose chunks are `w`. */
  function ValueOf(w: seq<nat>): nat {
    if w == [] then 0 else ValueOf(w[..|w| - 1]) + w[|w| - 1] * Pow(|w| - 1)
  }

  lemma Fits(p: nat, c: nat, v: nat)
    requires v < p && c < BASE
    ensures v + p * c < BASE * p
  {
    Spread(p, c, 63 - c);
    assert p * (63 - c) >= 0;
  }

  lemma {:induction false} ValueBelow(w: seq<nat>)
    requires IsWord(w, |w|)
    ensures ValueOf(w) < Pow(|w|)
    decreases |w|
  {
    if w != [] {
      var n := |w| - 1;
      ValueBelow(w[..n]);
      Fits(Pow(n), w[n], ValueOf(w[..n]));
      assert w[n] * Pow(n) == Pow(n) * w[n];
    }
  }

  /** A draw modulo the next power is its low part plus the next chunk. */
  lemma NextChunk(draw: nat, k: nat)
    ensures draw % Pow(k + 1) == draw % Pow(k) + Pow(k) * ChunkOf(draw, k)
  {
    var p, q := Pow(k), draw / Pow(k);
    var t, c := q / 64, q % 64;
    Spread(p, 64 * t, c);
    assert p * (64 * t) == (64 * p) * t;
    Fits(p, c, draw % p);
    Quotient(draw, 64 * p, t, draw % p + p * c);
  }

  lemma SplitUnique(p: nat, a: nat, x: nat, b: nat, y: nat)
    requires a < p && b < p
    ensures a + p * x == b + p * y <==> a == b && x == y
  {
    if a + p * x == b + p * y {
      Spread(p, x, 0 - y);
      assert p * (0 - y) == 0 - p * y;
      Small(p, x - y, b - a);
    }
  }

  /** The low chunks of a draw are `w` exactly when it is their value, modulo the power. */
  lemma {:induction false} ChunksAreValue(draw: nat, w: seq<nat>)
    requires IsWord(w, |w|)
    ensures ChunksOf(draw, |w|) == w <==> draw % Pow(|w|) == ValueOf(w)
    decreases |w|
  {
    if w != [] {
      var n := |w| - 1;
      var front := w[..n];
      ChunksAreValue(draw, front);
      NextChunk(draw, n);
      ValueBelow(front);
      SplitUnique(Pow(n), draw % Pow(n), ChunkOf(draw, n), ValueOf(front), w[n]);
      assert w[n] * Pow(n) == Pow(n) * w[n];
      hide ChunkOf, Pow, ValueOf;
      assert ChunksOf(draw, n + 1) == ChunksOf(draw, n) + [ChunkOf(draw, n)];
      assert w == front + [w[n]];
    }
  }

  function Residues(q: nat, p: nat, v: nat): set<nat>
    requires p > 0
  {
    set x: nat | x < p * q && x % p == v
  }

  /** The one number of the `q`-th stretch of length `p` with remainder `v`. */
  lemma InStretch(x: nat, q: nat, p: nat, v: nat)
    requires v < p && p * q <= x < p * q + p
    ensures x % p == v <==> x == p * q + v
  {
    Quotient(x, p, q, x - p * q);
  }

  lemma ResidueStep(q: nat, p: nat, v: nat)
    requires v < p
    ensures Residues(q + 1, p, v) == Residues(q, p, v) + {p * q + v}
  {
    Spread(p, q, 1);
    forall x: nat | p * q <= x < p * q + p ensures x % p == v <==> x == p * q + v {
      InStretch(x, q, p, v);
    }
  }

  lemma {:induction false} ResidueCount(q: nat, p: nat, v: nat)
    requires v < p
    ensures |Residues(q, p, v)| == q
    decreases q
  {
    if q == 0 {
      assert Residues(0, p, v) == {};
    } else {
      ResidueCount(q - 1, p, v);
      ResidueStep(q - 1, p, v);
      assert p * (q - 1) + v !in Residues(q - 1, p, v);
    }
  }

  lemma TenChunks()
    ensures 0x8000_0000_0000_0000 == 8 * Pow(PER_DRAW)
  {
    assert Pow(2) == 4096;
    assert Pow(4) == 64 * (64 * Pow(2));
    assert Pow(6) == 64 * (64 * Pow(4));
    assert Pow(8) == 64 * (64 * Pow(6));
    assert Pow(10) == 64 * (64 * Pow(8));
  }

  /** Every sequence of ten chunks comes from exactly eight of the 2^63 draws. */
  lemma DrawsPerTuple(w: seq<nat>)
    requires IsWord(w, PER_DRAW)
    ensures |set x: nat | x < 0x8000_0000_0000_0000 && ChunksOf(x, PER_DRAW) == w| == 8
  {
    TenChunks();
    ValueBelow(w);
    ResidueCount(8, Pow(PER_DRAW), ValueOf(w));
    forall x: nat ensures ChunksOf(x, PER_DRAW) == w <==> x % Pow(PER_DRAW) == ValueOf(w) {
      ChunksAreValue(x, w);
    }
    hide ChunksOf, ValueOf, Pow;
    assert (set x: nat | x < 0x8000_0000_0000_0000 && ChunksOf(x, PER_DRAW) == w)
      == Residues(8, Pow(PER_DRAW), ValueOf(w));
  }
}
