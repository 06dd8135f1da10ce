/** The card shoe of the blackjack table: shuffling in place, and dealing with a new shuffle when it is empty.

    Random numbers are arbitrary non-negative integers chosen by the environment.
 */
module Blackjack {

  // ---------------------------------------------------------------------------
  // Fisher-Yates
  // ---------------------------------------------------------------------------

  function Swap<T>(s: seq<T>, i: nat, j: nat): (r: seq<T>)
    requires i < |s| && j < |s|
    ensures |r| == |s|
  {
    s[i := s[j]][j := s[i]]
  }

  lemma SwapPermutes<T>(s: seq<T>, i: nat, j: nat)
    requires i < |s| && j < |s|
    ensures multiset(Swap(s, i, j)) == multiset(s)
  {
  }

  /** A sequence of choices for `n` cards: the first among `n`, the next among `n - 1`, down to two. */
  predicate Choices(n: nat, c: seq<nat>) {
    if n <= 1 then c == [] else c != [] && c[0] < n && Choices(n - 1, c[1..])
  }

  /** The arrangement the shuffle loop makes of `s` with choices `c`: the first place takes a card
      chosen among all, the second one chosen among the rest, and so on. */
  function FisherYates<T>(s: seq<T>, c: seq<nat>): (p: seq<T>)
    requires Choices(|s|, c)
    ensures |p| == |s|
    decreases |s|
  {
    if |s| <= 1 then s
    else
      var t := Swap(s, 0, c[0]);
      [t[0]] + FisherYates(t[1..], c[1..])
  }

  lemma HeadTail<T>(s: seq<T>)
    requires s != []
    ensures multiset(s) == multiset{s[0]} + multiset(s[1..])
  {
    assert s == [s[0]] + s[1..];
  }

  lemma {:induction false} ShufflePermutes<T>(s: seq<T>, c: seq<nat>)
    requires Choices(|s|, c)
    ensures multiset(FisherYates(s, c)) == multiset(s)
    decreases |s|
  {
    if |s| > 1 {
      var t := Swap(s, 0, c[0]);
      SwapPermutes(s, 0, c[0]);
      ShufflePermutes(t[1..], c[1..]);
      HeadTail(t);
    }
  }

  predicate Distinct<T(==)>(s: seq<T>) {
    forall i, j :: 0 <= i < j < |s| ==> s[i] != s[j]
  }

  /** `p` is the arrangement that the choices `c` make of `s`. */
  predicate Makes<T(==)>(s: seq<T>, c: seq<nat>, p: seq<T>) {
    Choices(|s|, c) && FisherYates(s, c) == p
  }

  /** The first choice fixes the first card; the other choices arrange the rest. */
  lemma MakesStep<T>(s: seq<T>, k: nat, c: seq<nat>, p: seq<T>)
    requires k < |s| && |s| > 1 && |p| == |s|
    ensures Makes(s, [k] + c, p) <==> s[k] == p[0] && Makes(Swap(s, 0, k)[1..], c, p[1..])
  {
    var t := Swap(s, 0, k);
    assert ([k] + c)[1..] == c;
    if Choices(|s| - 1, c) {
      var rest := FisherYates(t[1..], c);
      assert FisherYates(s, [k] + c) == [t[0]] + rest;
      ConsEqual(t[0], rest, p);
    }
  }

  lemma ConsEqual<T>(x: T, rest: seq<T>, p: seq<T>)
    requires p != []
    ensures [x] + rest == p <==> x == p[0] && rest == p[1..]
  {
    assert ([x] + rest)[1..] == rest;
    assert p == [p[0]] + p[1..];
  }

  lemma {:induction false} EveryArrangementIsMade<T>(s: seq<T>, p: seq<T>) returns (c: seq<nat>)
    requires multiset(s) == multiset(p)
    ensures Makes(s, c, p)
    decreases |s|
  {
    SameLength(s, p);
    if |s| <= 1 {
      c := [];
    } else {
      assert p[0] in multiset(p);
      var k :| 0 <= k < |s| && s[k] == p[0];
      var t := Swap(s, 0, k);
      SwapPermutes(s, 0, k);
      TailsAgree(t, p);
      var rest := EveryArrangementIsMade(t[1..], p[1..]);
      c := [k] + rest;
      MakesStep(s, k, rest, p);
    }
  }

  lemma TailsAgree<T>(s: seq<T>, p: seq<T>)
    requires s != [] && p != [] && s[0] == p[0] && multiset(s) == multiset(p)
    ensures multiset(s[1..]) == multiset(p[1..])
  {
    HeadTail(s);
    HeadTail(p);
    assert multiset(s[1..]) == multiset(s) - multiset{s[0]};
    assert multiset(p[1..]) == multiset(p) - multiset{p[0]};
  }

  lemma SameLength<T>(s: seq<T>, p: seq<T>)
    requires multiset(s) == multiset(p)
    ensures |s| == |p| && (|s| <= 1 ==> s == p)
  {
    assert |multiset(s)| == |multiset(p)|;
    if |s| == 1 {
      assert s[0] in multiset(p);
    }
  }

  lemma {:induction false} ChoicesUnique<T>(s: seq<T>, p: seq<T>, c: seq<nat>, d: seq<nat>)
    requires Distinct(s) && |p| == |s| && Makes(s, c, p) && Makes(s, d, p)
    ensures c == d
    decreases |s|
  {
    if |s| > 1 {
      assert c == [c[0]] + c[1..] && d == [d[0]] + d[1..];
      MakesStep(s, c[0], c[1..], p);
      MakesStep(s, d[0], d[1..], p);
      assert c[0] == d[0];
      ChoicesUnique(Swap(s, 0, c[0])[1..], p[1..], c[1..], d[1..]);
    }
  }

  /** Main result on shuffling: every arrangement of distinct cards is made by exactly one sequence of
      choices, so the loop is a bijection between choices and arrangements.  With repeated cards it still
      reaches every arrangement, and never anything else. */
  lemma ShuffleIsBijection<T>(s: seq<T>, p: seq<T>)
    ensures multiset(p) == multiset(s) <==> exists c :: Makes(s, c, p)
    ensures Distinct(s) ==> forall c, d :: Makes(s, c, p) && Makes(s, d, p) ==> c == d
  {
    if multiset(p) == multiset(s) {
      var c := EveryArrangementIsMade(s, p);
    }
    forall c | Makes(s, c, p)
      ensures multiset(p) == multiset(s) && |p| == |s|
    {
      ShufflePermutes(s, c);
    }
    if Distinct(s) {
      forall c, d | Makes(s, c, p) && Makes(s, d, p)
        ensures c == d
      {
        ChoicesUnique(s, p, c, d);
      }
    }
  }

  // ---------------------------------------------------------------------------
  // The shoe
  // ---------------------------------------------------------------------------

  /** `n` cards in order: 1 to 52, over and over. */
  function FullShoe(n: nat): (s: seq<int>)
    ensures |s| == n
  {
    seq(n, i => 1 + i % 52)
  }

  /** The choices that random numbers `r` come to: each is reduced modulo the number of cards left. */
  function Reduced(n: nat, r: seq<nat>): (c: seq<nat>)
    requires n <= |r| + 1
    ensures Choices(n, c)
    decreases n
  {
    if n <= 1 then [] else [r[0] % n] + Reduced(n - 1, r[1..])
  }

  /** A shoe of cards, dealt up to `pos`. */
  datatype Pack = Pack(cards: seq<int>, pos: nat)

  function Whole(n: nat): multiset<int> {
    multiset(FullShoe(n))
  }

  /** A shoe holding exactly the `n` cards `whole`. */
  ghost predicate Holds(p: Pack, n: nat, whole: multiset<int>) {
    |p.cards| == n && p.pos <= n && multiset(p.cards) == whole
  }

  function Shuffled(n: nat, r: seq<nat>): (p: Pack)
    requires n <= |r| + 1
    ensures p.pos == 0 && Holds(p, n, Whole(n))
  {
    ShufflePermutes(FullShoe(n), Reduced(n, r));
    Pack(FisherYates(FullShoe(n), Reduced(n, r)), 0)
  }

  /** Deal one card, from a fresh shuffle made with `r` when none is left. */
  function Deal(p: Pack, r: seq<nat>): (Pack, int)
    requires p.cards != [] && p.pos <= |p.cards| <= |r| + 1
  {
    var q := if p.pos == |p.cards| then Shuffled(|p.cards|, r) else p;
    (q.(pos := q.pos + 1), q.cards[q.pos])
  }

  ghost predicate EnoughRandom(n: nat, rs: seq<seq<nat>>) {
    forall i :: 0 <= i < |rs| ==> n <= |rs[i]| + 1
  }

  /** One deal for each element of `rs`: the shoe at the end and the cards dealt. */
  ghost function DealAll(p: Pack, n: nat, rs: seq<seq<nat>>): (res: (Pack, seq<int>))
    requires n > 0 && Holds(p, n, Whole(n)) && EnoughRandom(n, rs)
    ensures Holds(res.0, n, Whole(n)) && |res.1| == |rs|
    decreases |rs|
  {
    if rs == [] then (p, [])
    else
      var (q, dealt) := DealAll(p, n, rs[..|rs| - 1]);
      var (q', c) := Deal(q, rs[|rs| - 1]);
      (q', dealt + [c])
  }

  function Concat(blocks: seq<seq<int>>): seq<int>
    decreases |blocks|
  {
    if blocks == [] then [] else Concat(blocks[..|blocks| - 1]) + blocks[|blocks| - 1]
  }

  ghost predicate WholeBlocks(blocks: seq<seq<int>>, n: nat, whole: multiset<int>) {
    forall b :: 0 <= b < |blocks| ==> |blocks[b]| == n && multiset(blocks[b]) == whole
  }

  /** What has been dealt so far: whole shoes one after another, and then what the shoe `q` has given. */
  ghost predicate InBlocks(blocks: seq<seq<int>>, q: Pack, dealt: seq<int>, n: nat, whole: multiset<int>) {
    WholeBlocks(blocks, n, whole) && Holds(q, n, whole) && dealt == Concat(blocks) + q.cards[..q.pos]
  }

  lemma {:induction false} DealtInBlocks(p: Pack, n: nat, rs: seq<seq<nat>>) returns (blocks: seq<seq<int>>)
    requires n > 0 && Holds(p, n, Whole(n)) && p.pos == 0 && EnoughRandom(n, rs)
    ensures InBlocks(blocks, DealAll(p, n, rs).0, DealAll(p, n, rs).1, n, Whole(n))
    decreases |rs|
  {
    if rs == [] {
      blocks := [];
    } else {
      var before := DealtInBlocks(p, n, rs[..|rs| - 1]);
      var (q, dealt) := DealAll(p, n, rs[..|rs| - 1]);
      var (q', c) := Deal(q, rs[|rs| - 1]);
      if q.pos == n {
        blocks := NewBlock(before, q, dealt, q', n, Whole(n));
        assert q'.cards[..1] == [c];
      } else {
        blocks := before;
        assert q'.cards[..q'.pos] == q.cards[..q.pos] + [c];
      }
    }
  }

  /** The shoe is dealt out and shuffled again: its arrangement becomes a block. */
  lemma NewBlock(before: seq<seq<int>>, q: Pack, dealt: seq<int>, q': Pack, n: nat, whole: multiset<int>)
    returns (blocks: seq<seq<int>>)
    requires InBlocks(before, q, dealt, n, whole) && q.pos == n && Holds(q', n, whole)
    ensures WholeBlocks(blocks, n, whole) && dealt == Concat(blocks)
  {
    assert q.cards[..n] == q.cards;
    blocks := before + [q.cards];
    assert blocks[..|blocks| - 1] == before;
  }

  lemma {:induction false} ConcatLength(blocks: seq<seq<int>>, n: nat, whole: multiset<int>)
    requires WholeBlocks(blocks, n, whole)
    ensures |Concat(blocks)| == |blocks| * n
    decreases |blocks|
  {
    if blocks != [] {
      var m := |blocks| - 1;
      ConcatLength(blocks[..m], n, whole);
      assert |Concat(blocks)| == m * n + n;
      MulStep(m, n);
    }
  }

  lemma {:induction false} ConcatSlice(blocks: seq<seq<int>>, n: nat, whole: multiset<int>, b: nat)
    requires WholeBlocks(blocks, n, whole) && b < |blocks|
    ensures 0 <= b * n <= (b + 1) * n <= |Concat(blocks)|
    ensures Concat(blocks)[b * n..(b + 1) * n] == blocks[b]
    decreases |blocks|
  {
    var m := |blocks| - 1;
    assert (b + 1) * n == b * n + n && 0 <= b * n;
    ConcatLength(blocks[..m], n, whole);
    if b < m {
      ConcatSlice(blocks[..m], n, whole, b);
    }
  }

  lemma MulStep(a: nat, b: nat)
    ensures (a + 1) * b == a * b + b
  {
  }

  lemma MulMonotone(a: nat, b: nat, c: nat)
    requires a <= b
    ensures a * c <= b * c
  {
  }

  /** Quotient and remainder, from a sum. */
  lemma QuotientOf(q: nat, n: nat, p: nat)
    requires n > 0 && p < n
    ensures (q * n + p) / n == q
  {
    var d := (q * n + p) / n;
    assert q * n + p == d * n + (q * n + p) % n;
    assert d < q ==> (d + 1) * n <= q * n;
    assert d > q ==> (q + 1) * n <= d * n;
  }

  // ---- how often a card value appears

  lemma {:induction false} IotaCount(k: nat, v: int)
    ensures multiset(seq(k, i => 1 + i))[v] == if 1 <= v <= k then 1 else 0
  {
    var s := seq(k, i => 1 + i);
    if k > 0 {
      IotaCount(k - 1, v);
      assert s == seq(k - 1, i => 1 + i) + [k];
    }
  }

  /** A shoe of `decks` decks holds each of the 52 cards `decks` times. */
  lemma {:induction false} FullShoeCount(decks: nat, v: int)
    requires 1 <= v <= 52
    ensures multiset(FullShoe(52 * decks))[v] == decks
  {
    if decks > 0 {
      FullShoeCount(decks - 1, v);
      IotaCount(52, v);
      assert FullShoe(52 * decks) == FullShoe(52 * (decks - 1)) + seq(52, i => 1 + i);
    }
  }

  lemma {:induction false} ConcatCount(blocks: seq<seq<int>>, n: nat, whole: multiset<int>, v: int)
    requires WholeBlocks(blocks, n, whole)
    ensures multiset(Concat(blocks))[v] == |blocks| * whole[v]
    decreases |blocks|
  {
    if blocks != [] {
      var m := |blocks| - 1;
      ConcatCount(blocks[..m], n, whole, v);
      MulStep(m, whole[v]);
    }
  }

  lemma PrefixCount(s: seq<int>, k: nat, v: int)
    requires k <= |s|
    ensures multiset(s[..k]) + multiset(s[k..]) == multiset(s)
    ensures multiset(s[..k])[v] <= multiset(s)[v]
  {
    assert s == s[..k] + s[k..];
  }

  /** The `b`-th block of `n` deals. */
  lemma BlockOfDeals(blocks: seq<seq<int>>, q: Pack, dealt: seq<int>, n: nat, whole: multiset<int>, b: nat)
    requires n > 0 && InBlocks(blocks, q, dealt, n, whole) && (b + 1) * n <= |dealt|
    ensures 0 <= b * n <= (b + 1) * n && multiset(dealt[b * n..(b + 1) * n]) == whole
  {
    ConcatLength(blocks, n, whole);
    MulStep(b, n);
    if b < |blocks| {
      ConcatSlice(blocks, n, whole, b);
      assert dealt[b * n..(b + 1) * n] == Concat(blocks)[b * n..(b + 1) * n];
    } else {
      MulMonotone(|blocks|, b, n);
      assert dealt[b * n..(b + 1) * n] == q.cards;
    }
  }

  /** Main result on dealing: for any number of deals and any random numbers, each consecutive block of
      52 * decks deals is an arrangement of the whole shoe; and the last deals are what has been taken
      from the present shoe, which together with what remains in it is the whole shoe. */
  lemma DealsAreWholeShoes(decks: nat, r: seq<nat>, rs: seq<seq<nat>>)
    requires decks > 0 && 52 * decks <= |r| + 1 && EnoughRandom(52 * decks, rs)
    ensures var n := 52 * decks; var (q, dealt) := DealAll(Shuffled(n, r), n, rs);
      && q.pos <= |dealt| && dealt[|dealt| - q.pos..] == q.cards[..q.pos]
      && multiset(q.cards[..q.pos]) + multiset(q.cards[q.pos..]) == Whole(n)
      && (forall b: nat :: (b + 1) * n <= |dealt| ==>
            0 <= b * n <= (b + 1) * n && multiset(dealt[b * n..(b + 1) * n]) == Whole(n))
  {
    var n := 52 * decks;
    var (q, dealt) := DealAll(Shuffled(n, r), n, rs);
    var blocks := DealtInBlocks(Shuffled(n, r), n, rs);
    PrefixCount(q.cards, q.pos, 0);
    forall b: nat | (b + 1) * n <= |dealt|
      ensures 0 <= b * n <= (b + 1) * n && multiset(dealt[b * n..(b + 1) * n]) == Whole(n)
    {
      BlockOfDeals(blocks, q, dealt, n, Whole(n), b);
    }
  }

  /** `k` whole shoes and `p` more cards of `n`: the bounds on how often a card that a shoe holds `d` times
      was dealt. */
  lemma CountBounds(k: nat, n: nat, p: nat, d: nat, c: nat)
    requires 0 < n && p <= n && c <= d && (p == 0 ==> c == 0) && (p == n ==> c == d)
    ensures d * ((k * n + p) / n) <= k * d + c <= d * ((k * n + p + n - 1) / n)
  {
    MulStep(k, n);
    MulStep(k, d);
    if p == 0 {
      QuotientOf(k, n, 0);
      QuotientOf(k, n, n - 1);
    } else if p == n {
      QuotientOf(k + 1, n, 0);
      QuotientOf(k + 1, n, n - 1);
    } else {
      QuotientOf(k, n, p);
      QuotientOf(k + 1, n, p - 1);
    }
  }

  /** A card that a shoe of `n` holds `d` times was dealt `c` times in so many deals: the bounds. */
  predicate Fair(c: nat, deals: nat, n: nat, d: nat)
    requires n > 0
  {
    d * (deals / n) <= c <= d * ((deals + n - 1) / n)
  }

  lemma CountInBlocks(blocks: seq<seq<int>>, q: Pack, dealt: seq<int>, n: nat, whole: multiset<int>, v: int,
                      deals: nat, d: nat)
    requires n > 0 && InBlocks(blocks, q, dealt, n, whole) && deals == |dealt| && d == whole[v]
    ensures Fair(multiset(dealt)[v], deals, n, d)
  {
    ConcatLength(blocks, n, whole);
    ConcatCount(blocks, n, whole, v);
    PrefixCount(q.cards, q.pos, v);
    assert q.pos == n ==> q.cards[..q.pos] == q.cards;
    CountBounds(|blocks|, n, q.pos, d, multiset(q.cards[..q.pos])[v]);
  }

  /** So after N deals from a shoe of n cards, a card value that the shoe holds d times has been dealt
      between d * floor(N / n) and d * ceil(N / n) times.  By `FullShoeCount`, d is the number of decks. */
  lemma DealsAreFair(n: nat, r: seq<nat>, rs: seq<seq<nat>>, v: int, d: nat)
    requires 0 < n <= |r| + 1 && EnoughRandom(n, rs) && Whole(n)[v] == d
    ensures var dealt := DealAll(Shuffled(n, r), n, rs).1;
      Fair(multiset(dealt)[v], |rs|, n, d)
  {
    var blocks := DealtInBlocks(Shuffled(n, r), n, rs);
    var (q, dealt) := DealAll(Shuffled(n, r), n, rs);
    CountInBlocks(blocks, q, dealt, n, Whole(n), v, |rs|, d);
  }

  /** Main result on fairness: with `decks` decks and N deals, each card number from 1 to 52 has been dealt
      between decks * floor(N / (52 * decks)) and decks * ceil(N / (52 * decks)) times. */
  lemma EveryCardIsDealtFairly(decks: nat, r: seq<nat>, rs: seq<seq<nat>>, v: int)
    requires decks > 0 && 52 * decks <= |r| + 1 && EnoughRandom(52 * decks, rs) && 1 <= v <= 52
    ensures var n := 52 * decks; var dealt := DealAll(Shuffled(n, r), n, rs).1;
      Fair(multiset(dealt)[v], |rs|, n, decks)
  {
    FullShoeCount(decks, v);
    DealsAreFair(52 * decks, r, rs, v, decks);
  }

  /** One round of the shuffle loop fixes one more card of the arrangement. */
  lemma PlaceOne<T>(done: seq<T>, rest: seq<T>, k: nat, c: seq<nat>)
    requires |rest| > 1 && k < |rest| && Choices(|rest| - 1, c)
    ensures Choices(|rest|, [k] + c)
    ensures var t := Swap(rest, 0, k);
      done + [t[0]] + FisherYates(t[1..], c) == done + FisherYates(rest, [k] + c)
  {
    assert ([k] + c)[1..] == c;
  }

  /** The choices for all rounds on `n` cards, round by round. */
  predicate Bounded(n: nat, c: seq<nat>) {
    |c| + 1 == n && forall i :: 0 <= i < |c| ==> c[i] < n - i
  }

  /** The rest of the shuffle loop, from round `i` on. */
  function MixFrom(v: seq<int>, i: nat, c: seq<nat>): seq<int>
    requires i < |v| && Bounded(|v|, c)
    decreases |v| - i
  {
    if i == |c| then v else MixFrom(Swap(v, i, i + c[i]), i + 1, c)
  }

  lemma {:induction false} BoundedChoices(n: nat, c: seq<nat>)
    requires n > 0
    ensures Choices(n, c) <==> Bounded(n, c)
    decreases n
  {
    if n > 1 && c != [] {
      BoundedChoices(n - 1, c[1..]);
      assert Bounded(n - 1, c[1..]) && c[0] < n ==> forall i :: 1 <= i < |c| ==> c[i] == c[1..][i - 1];
    }
  }

  lemma SwapBehind(v: seq<int>, i: nat, k: nat)
    requires i + k < |v|
    ensures var w, t := Swap(v, i, i + k), Swap(v[i..], 0, k);
      w[..i + 1] == v[..i] + [t[0]] && w[i + 1..] == t[1..]
  {
  }

  lemma MixRound(v: seq<int>, i: nat, k: nat, c: seq<nat>)
    requires i + 1 < |v| && k < |v| - i && Choices(|v| - i - 1, c)
    ensures Choices(|v| - i, [k] + c)
    ensures var w := Swap(v, i, i + k);
      w[..i + 1] + FisherYates(w[i + 1..], c) == v[..i] + FisherYates(v[i..], [k] + c)
  {
    PlaceOne(v[..i], v[i..], k, c);
    SwapBehind(v, i, k);
  }

  lemma {:induction false} ReducedAt(n: nat, r: seq<nat>, i: nat)
    requires i + 1 < n <= |r| + 1
    ensures |Reduced(n, r)| == n - 1 && Reduced(n, r)[i] == r[i] % (n - i)
    decreases n
  {
    BoundedChoices(n, Reduced(n, r));
    if i > 0 {
      ReducedAt(n - 1, r[1..], i - 1);
    }
  }

  /** It makes the arrangement that the remaining choices stand for. */
  lemma {:induction false} MixFromIs(v: seq<int>, i: nat, c: seq<nat>)
    requires i < |v| && Bounded(|v|, c)
    ensures Choices(|v| - i, c[i..]) && MixFrom(v, i, c) == v[..i] + FisherYates(v[i..], c[i..])
    decreases |v| - i
  {
    if i == |c| {
      assert v == v[..i] + v[i..];
    } else {
      MixFromIs(Swap(v, i, i + c[i]), i + 1, c);
      MixRound(v, i, c[i], c[i + 1..]);
      assert c[i..] == [c[i]] + c[i + 1..];
    }
  }

  // ---------------------------------------------------------------------------
  // Which shuffle, and which card
  // ---------------------------------------------------------------------------

  lemma SmallModulo(k: nat, n: nat)
    requires k < n
    ensures k % n == k
  {
  }

  /** Random numbers that are already small enough are the choices. */
  lemma {:induction false} ChoicesAreReduced(n: nat, c: seq<nat>)
    requires Choices(n, c)
    ensures n <= |c| + 1 && Reduced(n, c) == c
    decreases n
  {
    if n > 1 {
      ChoicesAreReduced(n - 1, c[1..]);
      SmallModulo(c[0], n);
      assert c == [c[0]] + c[1..];
    }
  }

  /** Every arrangement of the whole shoe is the outcome of some shuffle, and every outcome is one. */
  lemma EveryShuffleIff(n: nat, p: seq<int>)
    ensures multiset(p) == Whole(n) <==> exists r: seq<nat> :: n <= |r| + 1 && Shuffled(n, r).cards == p
  {
    if multiset(p) == Whole(n) {
      var c := EveryArrangementIsMade(FullShoe(n), p);
      ChoicesAreReduced(n, c);
      assert Shuffled(n, c).cards == p;
    }
  }

  /** The random numbers agree, in each round, modulo the number of cards left. */
  predicate SameModulo(n: nat, r: seq<nat>, r': seq<nat>)
    requires n <= |r| + 1 && n <= |r'| + 1
  {
    forall i :: 0 <= i < n - 1 ==> r[i] % (n - i) == r'[i] % (n - i)
  }

  lemma OneDeckIsDistinct(n: nat)
    requires n <= 52
    ensures Distinct(FullShoe(n))
  {
  }

  lemma SameArrangementIff(s: seq<int>, c: seq<nat>, d: seq<nat>)
    requires Distinct(s) && Choices(|s|, c) && Choices(|s|, d)
    ensures FisherYates(s, c) == FisherYates(s, d) <==> c == d
  {
    if FisherYates(s, c) == FisherYates(s, d) {
      ChoicesUnique(s, FisherYates(s, c), c, d);
    }
  }

  /** Two runs of random numbers shuffle the cards of one deck alike exactly when they agree, in each round,
      modulo the number of cards left. */
  lemma SameShuffleIff(n: nat, r: seq<nat>, r': seq<nat>)
    requires n <= 52 && n <= |r| + 1 && n <= |r'| + 1
    ensures Shuffled(n, r).cards == Shuffled(n, r').cards <==> SameModulo(n, r, r')
  {
    OneDeckIsDistinct(n);
    SameArrangementIff(FullShoe(n), Reduced(n, r), Reduced(n, r'));
    SameReducedIff(n, r, r');
  }

  lemma {:induction false} ReducedLength(n: nat, r: seq<nat>)
    requires n <= |r| + 1
    ensures |Reduced(n, r)| == if n == 0 then 0 else n - 1
    decreases n
  {
    if n > 1 {
      ReducedLength(n - 1, r[1..]);
    }
  }

  lemma SameReducedIff(n: nat, r: seq<nat>, r': seq<nat>)
    requires n <= |r| + 1 && n <= |r'| + 1
    ensures Reduced(n, r) == Reduced(n, r') <==> SameModulo(n, r, r')
  {
    ReducedLength(n, r);
    ReducedLength(n, r');
    forall i | 0 <= i < n - 1
      ensures Reduced(n, r)[i] == r[i] % (n - i) && Reduced(n, r')[i] == r'[i] % (n - i)
    {
      ReducedAt(n, r, i);
      ReducedAt(n, r', i);
    }
  }

  /** The first card is the one that the first random number chooses from the whole shoe. */
  lemma FirstCard(n: nat, r: seq<nat>)
    requires 2 <= n <= |r| + 1
    ensures Shuffled(n, r).cards[0] == FullShoe(n)[r[0] % n]
  {
  }

  /** The shuffle that would be made before each of the deals. */
  function Shuffles(n: nat, rs: seq<seq<nat>>): (ps: seq<seq<int>>)
    requires EnoughRandom(n, rs)
    ensures |ps| == |rs| && forall i :: 0 <= i < |rs| ==> |ps[i]| == n && ps[i] == Shuffled(n, rs[i]).cards
  {
    seq(|rs|, i requires 0 <= i < |rs| => Shuffled(n, rs[i]).cards)
  }

  predicate SameSize(n: nat, ps: seq<seq<int>>) {
    forall i :: 0 <= i < |ps| ==> |ps[i]| == n
  }

  /** A pile of cards dealt from the top, and replaced when it is empty. */
  datatype Pile = Pile(cards: seq<int>, pos: nat, dealt: seq<int>)

  /** One deal for each of `ps`: it comes from that pile when the present one is empty. */
  function DealPiles(first: seq<int>, ps: seq<seq<int>>, n: nat): (s: Pile)
    requires n == |first| > 0 && SameSize(n, ps)
    ensures |s.cards| == n && s.pos <= n && |s.dealt| == |ps|
    decreases |ps|
  {
    if ps == [] then Pile(first, 0, [])
    else
      var s := DealPiles(first, ps[..|ps| - 1], n);
      var cards := if s.pos == n then ps[|ps| - 1] else s.cards;
      var pos := if s.pos == n then 0 else s.pos;
      Pile(cards, pos + 1, s.dealt + [cards[pos]])
  }

  /** A deal from a shuffle, when `pos` of its cards are gone: the next card, or the first of a new shuffle. */
  lemma DealFrom(q: Pack, r: seq<nat>)
    requires q.cards != [] && q.pos <= |q.cards| <= |r| + 1
    ensures var anew := Shuffled(|q.cards|, r).cards;
      Deal(q, r) == if q.pos == |q.cards| then (Pack(anew, 1), anew[0]) else (Pack(q.cards, q.pos + 1), q.cards[q.pos])
  {
  }

  /** The shoe deals piles that are shuffles. */
  lemma {:induction false} DealAllIsPiles(p: Pack, n: nat, rs: seq<seq<nat>>)
    requires n > 0 && Holds(p, n, Whole(n)) && p.pos == 0 && EnoughRandom(n, rs)
    ensures var s := DealPiles(p.cards, Shuffles(n, rs), n);
      DealAll(p, n, rs) == (Pack(s.cards, s.pos), s.dealt)
    decreases |rs|
  {
    if rs != [] {
      var pre, last := rs[..|rs| - 1], rs[|rs| - 1];
      DealAllIsPiles(p, n, pre);
      assert Shuffles(n, rs)[..|rs| - 1] == Shuffles(n, pre);
      DealFrom(DealAll(p, n, pre).0, last);
    }
  }

  /** The pile begun with deal number `at`. */
  function PileAt(first: seq<int>, ps: seq<seq<int>>, at: nat): seq<int>
    requires at < |ps|
  {
    if at == 0 then first else ps[at]
  }

  /** The state after all the deals: the pile was begun at `at`, before which `b` piles were dealt out. */
  lemma {:induction false} PileAfter(first: seq<int>, ps: seq<seq<int>>, n: nat) returns (b: nat, at: nat)
    requires n == |first| > 0 && SameSize(n, ps) && ps != []
    ensures var s := DealPiles(first, ps, n);
      && 0 < s.pos && at + s.pos == |ps| && s.cards == PileAt(first, ps, at)
      && s.dealt[|ps| - 1] == s.cards[s.pos - 1]
    ensures at == b * n
    decreases |ps|
  {
    var pre := ps[..|ps| - 1];
    if pre == [] {
      b, at := 0, 0;
    } else {
      b, at := PileAfter(first, pre, n);
      MulStep(b, n);
      if DealPiles(first, pre, n).pos == n {
        b, at := b + 1, at + n;
      }
    }
  }

  /** A position in the deals names its block and its place there. */
  lemma OnePlace(n: nat, b: nat, i: nat, b': nat, i': nat)
    requires i < n && i' < n && b * n + i == b' * n + i'
    ensures b == b' && i == i'
  {
    QuotientOf(b, n, i);
    QuotientOf(b', n, i');
  }

  lemma {:induction false} PileDealt(first: seq<int>, ps: seq<seq<int>>, n: nat, b: nat, at: nat, i: nat)
    requires n == |first| > 0 && SameSize(n, ps) && i < n && at == b * n && at + i < |ps|
    ensures DealPiles(first, ps, n).dealt[at + i] == PileAt(first, ps, at)[i]
    decreases |ps|
  {
    var last := |ps| - 1;
    if at + i == last {
      var b', at' := PileAfter(first, ps, n);
      OnePlace(n, b, i, b', last - at');
    } else {
      PileDealt(first, ps[..last], n, b, at, i);
    }
  }

  /** Main result on which card: the i-th card of the b-th block dealt is the i-th card of the shuffle with which the
      block began, that of the new shoe or that made for the block's first deal. */
  lemma DealtIs(n: nat, r: seq<nat>, rs: seq<seq<nat>>, b: nat, at: nat, i: nat)
    requires 0 < n <= |r| + 1 && EnoughRandom(n, rs) && i < n && at == b * n && at + i < |rs|
    ensures DealAll(Shuffled(n, r), n, rs).1[at + i] == Shuffled(n, if at == 0 then r else rs[at]).cards[i]
  {
    DealAllIsPiles(Shuffled(n, r), n, rs);
    PileDealt(Shuffled(n, r).cards, Shuffles(n, rs), n, b, at, i);
  }

  // ---------------------------------------------------------------------------
  // The shoe object
  // ---------------------------------------------------------------------------

  /** The shoe: a vector of cards shuffled in place, and the position of the next card. */
  class Shoe {
    var cards: array<int>
    var pos: nat

    ghost predicate Valid()
      reads this, cards
    {
      cards.Length > 0 && Holds(Contents(), cards.Length, Whole(cards.Length))
    }

    ghost function Contents(): Pack
      reads this, cards
    {
      Pack(cards[..], pos)
    }

    /** `game` makes a shoe of 1 to 6 decks. */
    constructor (decks: nat, r: seq<nat>)
      requires decks > 0 && 52 * decks <= |r| + 1
      ensures Valid() && fresh(cards) && cards.Length == 52 * decks
      ensures Contents() == Shuffled(52 * decks, r)
    {
      cards := new int[decks * 52];
      pos := 0;
      new;
      Shuffle(r);
    }

    method Shuffle(r: seq<nat>)
      requires 0 < cards.Length <= |r| + 1
      modifies this`pos, cards
      ensures Valid() && Contents() == Shuffled(cards.Length, r)
    {
      for i := 0 to cards.Length
        invariant forall k :: 0 <= k < i ==> cards[k] == 1 + k % 52
      {
        cards[i] := 1 + i % 52;
      }
      ghost var n := cards.Length;
      assert cards[..] == FullShoe(n);
      Mix(r);
      assert cards[..] == Shuffled(n, r).cards;
      pos := 0;
    }

    /** The second loop of `shuffle`. */
    method Mix(r: seq<nat>)
      requires 0 < cards.Length <= |r| + 1
      modifies cards
      ensures cards[..] == FisherYates(old(cards[..]), Reduced(cards.Length, r))
    {
      var n := cards.Length;
      ghost var c := Reduced(n, r);
      BoundedChoices(n, c);
      MixFromIs(cards[..], 0, c);
      assert c[0..] == c && cards[0..] == cards[..];
      for i := 0 to n - 1
        invariant MixFrom(cards[..], i, c) == MixFrom(old(cards[..]), 0, c)
      {
        ReducedAt(n, r, i);
        SwapCards(i, i + r[i] % (n - i));
      }
    }

    method SwapCards(i: nat, j: nat)
      requires i <= j < cards.Length
      modifies cards
      ensures cards[..] == Swap(old(cards[..]), i, j)
    {
      cards[i], cards[j] := cards[j], cards[i];
    }

    method DealCard(r: seq<nat>) returns (card: int)
      requires Valid() && cards.Length <= |r| + 1
      modifies this`pos, cards
      ensures Valid()
      ensures (Contents(), card) == Deal(old(Contents()), r)
    {
      if pos == cards.Length {
        Shuffle(r);
      }
      card := cards[pos];
      pos := pos + 1;
    }
  }
}
