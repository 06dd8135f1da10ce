/** Hand evaluation and round-robin dealing to the seats of the blackjack table. */
module Hand {

  // ---------------------------------------------------------------------------
  // Evaluation
  // ---------------------------------------------------------------------------

  /** `t` is a total of the hand for some choice of 1 or 11 for each card equal to 1. */
  predicate IsTotal(cards: seq<int>, t: int) {
    if cards == [] then t == 0
    else if cards[0] == 1 then IsTotal(cards[1..], t - 1) || IsTotal(cards[1..], t - 11)
    else IsTotal(cards[1..], t - cards[0])
  }

  function Aces(cards: seq<int>): nat {
    if cards == [] then 0 else (if cards[0] == 1 then 1 else 0) + Aces(cards[1..])
  }

  function Sum(cards: seq<int>): int {
    if cards == [] then 0 else cards[0] + Sum(cards[1..])
  }

  /** The totals are the sum with every ace as 1, plus ten for any number of the aces. */
  lemma {:induction false} TotalsAreSumPlusTens(cards: seq<int>, t: int)
    ensures IsTotal(cards, t) <==> exists k :: 0 <= k <= Aces(cards) && t == Sum(cards) + 10 * k
    decreases |cards|
  {
    if cards == [] {
      assert IsTotal(cards, t) ==> t == Sum(cards) + 10 * 0;
    } else {
      var rest := cards[1..];
      TotalsAreSumPlusTens(rest, t - cards[0]);
      if cards[0] == 1 {
        TotalsAreSumPlusTens(rest, t - 11);
        if IsTotal(rest, t - 1) {
          var k :| 0 <= k <= Aces(rest) && t - 1 == Sum(rest) + 10 * k;
          assert t == Sum(cards) + 10 * k;
        }
        if IsTotal(rest, t - 11) {
          var k :| 0 <= k <= Aces(rest) && t - 11 == Sum(rest) + 10 * k;
          assert t == Sum(cards) + 10 * (k + 1);
        }
        if k :| 0 <= k <= Aces(cards) && t == Sum(cards) + 10 * k {
          if k <= Aces(rest) {
            assert t - 1 == Sum(rest) + 10 * k;
          } else {
            assert t - 11 == Sum(rest) + 10 * (k - 1);
          }
        }
      } else {
        assert forall k :: t - cards[0] == Sum(rest) + 10 * k <==> t == Sum(cards) + 10 * k;
      }
    }
  }

  /** The largest total that does not exceed 21, or the smallest total when every one does. */
  ghost predicate IsBest(cards: seq<int>, t: int) {
    && IsTotal(cards, t)
    && (t <= 21 ==> forall u :: IsTotal(cards, u) && u <= 21 ==> u <= t)
    && (t > 21 ==> forall u :: IsTotal(cards, u) ==> t <= u)
  }

  lemma BestFromTens(cards: seq<int>, k: nat)
    requires k <= Aces(cards)
    requires Sum(cards) + 10 * k <= 21 || k == 0
    requires k == Aces(cards) || Sum(cards) + 10 * (k + 1) > 21
    ensures IsBest(cards, Sum(cards) + 10 * k)
  {
    var t := Sum(cards) + 10 * k;
    TotalsAreSumPlusTens(cards, t);
    forall u | IsTotal(cards, u)
      ensures u <= 21 ==> u <= t
      ensures t > 21 ==> t <= u
    {
      TotalsAreSumPlusTens(cards, u);
      var j :| 0 <= j <= Aces(cards) && u == Sum(cards) + 10 * j;
    }
  }

  ghost predicate EveryTotalExceeds21(cards: seq<int>) {
    forall t :: IsTotal(cards, t) ==> t > 21
  }

  lemma BestDecides(cards: seq<int>, t: int)
    requires IsBest(cards, t)
    ensures t > 21 <==> EveryTotalExceeds21(cards)
    ensures t == 21 <==> IsTotal(cards, 21)
  {
    if t <= 21 {
      assert IsTotal(cards, t) && !(t > 21);
    }
  }

  lemma {:induction false} SumAcesSnoc(cards: seq<int>, c: int)
    ensures Sum(cards + [c]) == Sum(cards) + c
    ensures Aces(cards + [c]) == Aces(cards) + (if c == 1 then 1 else 0)
    decreases |cards|
  {
    if cards == [] {
      assert cards + [c] == [c];
    } else {
      assert (cards + [c])[1..] == cards[1..] + [c];
      SumAcesSnoc(cards[1..], c);
    }
  }

  /** `hand::eval`: busted holds exactly when every choice exceeds 21, and twenty_one exactly when some choice is 21. */
  method Eval(cards: seq<int>) returns (total: int, busted: bool, twentyOne: bool, blackjack: bool)
    ensures IsBest(cards, total)
    ensures busted <==> EveryTotalExceeds21(cards)
    ensures twentyOne <==> IsTotal(cards, 21)
    ensures blackjack <==> IsTotal(cards, 21) && |cards| == 2
  {
    var aces := 0;
    total := 0;
    for i := 0 to |cards|
      invariant aces == Aces(cards[..i]) && total == Sum(cards[..i]) + 10 * aces
    {
      assert cards[..i + 1] == cards[..i] + [cards[i]];
      SumAcesSnoc(cards[..i], cards[i]);
      if cards[i] != 1 {
        total := total + cards[i];
      } else {
        aces := aces + 1;
        total := total + 11;
      }
    }
    assert cards[..|cards|] == cards;
    // when the total is too large the guard tests the number of aces and then decrements it, even from zero
    ghost var k: nat := aces;
    while total > 21
      invariant k <= Aces(cards) && aces == k && total == Sum(cards) + 10 * k
      invariant k == Aces(cards) || Sum(cards) + 10 * (k + 1) > 21
      decreases k
    {
      var more := aces != 0;
      aces := aces - 1;
      if !more {
        break;
      }
      total := total - 10;
      k := k - 1;
    }
    BestFromTens(cards, k);
    BestDecides(cards, total);
    busted := total > 21;
    twentyOne := total == 21;
    blackjack := twentyOne && |cards| == 2;
  }

  // ---------------------------------------------------------------------------
  // Raw card numbers
  // ---------------------------------------------------------------------------

  /** `hand::value`: the blackjack value of a card number, an ace as 1.  `eval` does not use it. */
  function Value(c: int): int
    requires c >= 1
  {
    var v := 1 + (c - 1) % 13;
    if v > 10 then 10 else v
  }

  function Values(cards: seq<int>): (v: seq<int>)
    requires forall i :: 0 <= i < |cards| ==> 1 <= cards[i]
    ensures |v| == |cards|
  {
    seq(|cards|, i requires 0 <= i < |cards| => Value(cards[i]))
  }

  /** Thirteen ranks to a suit: an ace to a ten count as their rank, a court card as ten. */
  lemma ValueIs(suit: nat, rank: nat)
    requires 1 <= rank <= 13
    ensures Value(13 * suit + rank) == if rank <= 10 then rank else 10
  {
  }

  lemma LowValue(c: int)
    requires 1 <= c <= 10
    ensures Value(c) == c
  {
  }

  lemma {:induction false} ValuesSum(cards: seq<int>)
    requires forall i :: 0 <= i < |cards| ==> 1 <= cards[i]
    ensures Sum(Values(cards)) <= Sum(cards)
    ensures Sum(Values(cards)) == Sum(cards) <==> forall i :: 0 <= i < |cards| ==> cards[i] <= 10
    decreases |cards|
  {
    if cards != [] {
      assert Values(cards)[1..] == Values(cards[1..]);
      ValuesSum(cards[1..]);
      assert forall i :: 0 <= i < |cards[1..]| ==> cards[1..][i] == cards[i + 1];
      assert forall i :: 1 <= i < |cards| ==> cards[i] == cards[1..][i - 1];
    }
  }

  /** `eval` works on card numbers rather than values: it chooses among the totals of the blackjack hand
      exactly when no card number exceeds 10, that is, for cards of the first suit below the court cards. */
  lemma RawTotalsIff(cards: seq<int>)
    requires forall i :: 0 <= i < |cards| ==> 1 <= cards[i] <= 52
    ensures (forall t :: IsTotal(cards, t) <==> IsTotal(Values(cards), t)) <==>
            forall i :: 0 <= i < |cards| ==> cards[i] <= 10
  {
    ValuesSum(cards);
    if forall i :: 0 <= i < |cards| ==> cards[i] <= 10 {
      forall i | 0 <= i < |cards| ensures Values(cards)[i] == cards[i] {
        LowValue(cards[i]);
      }
      assert Values(cards) == cards;
    } else {
      var t := Sum(Values(cards));
      TotalsAreSumPlusTens(Values(cards), t);
      assert t == Sum(Values(cards)) + 10 * 0;
      TotalsAreSumPlusTens(cards, t);
    }
  }

  lemma {:induction false} SumAtLeastLength(cards: seq<int>)
    requires forall i :: 0 <= i < |cards| ==> 1 <= cards[i]
    ensures Aces(cards) <= |cards| <= Sum(cards)
    decreases |cards|
  {
    if cards != [] {
      SumAtLeastLength(cards[1..]);
    }
  }

  /** Some total is 21 exactly when the sum is, or the sum is 11 and there is an ace. */
  predicate Makes21(cards: seq<int>) {
    Sum(cards) == 21 || (Sum(cards) == 11 && Aces(cards) > 0)
  }

  lemma FlagsFromSums(cards: seq<int>)
    requires forall i :: 0 <= i < |cards| ==> 1 <= cards[i]
    ensures EveryTotalExceeds21(cards) <==> Sum(cards) > 21
    ensures IsTotal(cards, 21) <==> Makes21(cards)
  {
    assert Sum(cards) == Sum(cards) + 10 * 0;
    TotalsAreSumPlusTens(cards, Sum(cards));
    forall t | IsTotal(cards, t)
      ensures t >= Sum(cards)
    {
      TotalsAreSumPlusTens(cards, t);
    }
    SumAtLeastLength(cards);
    TotalsAreSumPlusTens(cards, 21);
    if Makes21(cards) {
      var k := if Sum(cards) == 21 then 0 else 1;
      assert 0 <= k <= Aces(cards) && 21 == Sum(cards) + 10 * k;
    }
  }

  /** Main result on `eval`: when its flags differ from those of the blackjack hand.  Since values never sum to
      more than card numbers, it can only find a good hand busted, and does so exactly when the values sum to
      at most 21 and the numbers to more.  The other two flags are wrong exactly when just one of the sums
      makes 21. */
  lemma FlagsWrongIff(cards: seq<int>)
    requires forall i :: 0 <= i < |cards| ==> 1 <= cards[i] <= 52
    ensures EveryTotalExceeds21(Values(cards)) ==> EveryTotalExceeds21(cards)
    ensures EveryTotalExceeds21(cards) && !EveryTotalExceeds21(Values(cards)) <==> Sum(Values(cards)) <= 21 < Sum(cards)
    ensures IsTotal(cards, 21) != IsTotal(Values(cards), 21) <==> Makes21(cards) != Makes21(Values(cards))
  {
    ValuesSum(cards);
    FlagsFromSums(cards);
    FlagsFromSums(Values(cards));
  }

  /** Each kind of wrong flag: a jack and a queen busted; an ace and a jack not a blackjack; an eight and a king
      one. */
  lemma FlagsWrong()
    ensures EveryTotalExceeds21([11, 12]) && !EveryTotalExceeds21(Values([11, 12]))
    ensures !IsTotal([1, 11], 21) && IsTotal(Values([1, 11]), 21)
    ensures IsTotal([8, 13], 21) && !IsTotal(Values([8, 13]), 21)
  {
    assert Values([11, 12]) == [10, 10] && Values([1, 11]) == [1, 10] && Values([8, 13]) == [8, 10];
    FlagsFromSums([11, 12]);
    FlagsFromSums([10, 10]);
    FlagsFromSums([1, 11]);
    FlagsFromSums([1, 10]);
    FlagsFromSums([8, 13]);
    FlagsFromSums([8, 10]);
  }

  // ---------------------------------------------------------------------------
  // Round-robin dealing
  // ---------------------------------------------------------------------------

  /** The dealer and five players; a hand's storage holds at most 22 cards. */
  const SEATS: nat := 6
  const HAND_MAX: nat := 22

  /** Each seat's first hand, and whose turn it is. */
  datatype Table = Table(hands: seq<seq<int>>, turn: nat)

  /** A card was dealt; or a hand was full, and the exception it threw ended the program. */
  datatype Outcome = Dealt(t: Table) | Terminated

  function NewTable(): (t: Table)
    ensures Seated(t)
  {
    Table(seq(SEATS, _ => []), 0)
  }

  predicate Seated(t: Table) {
    |t.hands| == SEATS && t.turn < SEATS
  }

  /** `game::deal_one` with card `c`. */
  function DealOne(t: Table, c: int): (o: Outcome)
    requires Seated(t)
    ensures o.Dealt? ==> Seated(o.t)
  {
    if |t.hands[t.turn]| >= HAND_MAX then Terminated
    else Dealt(Table(t.hands[t.turn := t.hands[t.turn] + [c]], if t.turn + 1 >= SEATS then 0 else t.turn + 1))
  }

  /** The outcome of a sequence of `start` requests, one for each card of `cards`. */
  function DealAll(cards: seq<int>): (o: Outcome)
    ensures o.Dealt? ==> Seated(o.t)
    decreases |cards|
  {
    if cards == [] then Dealt(NewTable())
    else
      match DealAll(cards[..|cards| - 1])
      case Terminated => Terminated
      case Dealt(t) => DealOne(t, cards[|cards| - 1])
  }

  /** How many of `n` cards dealt in turn go to seat `i`. */
  function Share(n: nat, i: nat): nat
    requires i < SEATS
  {
    (n + SEATS - 1 - i) / SEATS
  }

  /** Seat `i` holds the cards dealt at positions i, i + 6, i + 12, ... */
  ghost predicate RoundRobin(hands: seq<seq<int>>, cards: seq<int>) {
    && |hands| == SEATS
    && (forall i :: 0 <= i < SEATS ==> |hands[i]| == Share(|cards|, i))
    && (forall i, k :: 0 <= i < SEATS && 0 <= k < |hands[i]| ==>
          SEATS * k + i < |cards| && hands[i][k] == cards[SEATS * k + i])
  }

  lemma ShareStep(n: nat, i: nat)
    requires i < SEATS
    ensures Share(n + 1, i) == Share(n, i) + if i == n % SEATS then 1 else 0
    ensures i == n % SEATS ==> SEATS * Share(n, i) + i == n
  {
  }

  lemma RoundRobinStep(hands: seq<seq<int>>, cards: seq<int>, turn: nat, c: int)
    requires RoundRobin(hands, cards) && turn == |cards| % SEATS
    ensures RoundRobin(hands[turn := hands[turn] + [c]], cards + [c])
  {
    var hands' := hands[turn := hands[turn] + [c]];
    forall i | 0 <= i < SEATS
      ensures |hands'[i]| == Share(|cards| + 1, i)
    {
      ShareStep(|cards|, i);
    }
    forall i, k | 0 <= i < SEATS && 0 <= k < |hands'[i]|
      ensures SEATS * k + i < |cards| + 1 && hands'[i][k] == (cards + [c])[SEATS * k + i]
    {
      ShareStep(|cards|, i);
      if k < |hands[i]| {
        assert hands'[i][k] == hands[i][k];
      }
    }
  }

  lemma FullWhen(hands: seq<seq<int>>, cards: seq<int>)
    requires RoundRobin(hands, cards)
    ensures |hands[|cards| % SEATS]| == |cards| / SEATS
  {
  }

  /** What `DealAll` comes to: up to 132 deals in turn, and with one more the end of the program. */
  ghost predicate DealsInTurn(o: Outcome, cards: seq<int>) {
    if |cards| <= SEATS * HAND_MAX then o.Dealt? && RoundRobin(o.t.hands, cards) && o.t.turn == |cards| % SEATS
    else o == Terminated
  }

  /** For any number of requests: up to 132 cards are dealt, the k-th one to seat k mod 6; the program ends
      exactly with the 133rd request. */
  lemma {:induction false} DealsRoundRobin(cards: seq<int>)
    ensures DealsInTurn(DealAll(cards), cards)
    decreases |cards|
  {
    if cards != [] {
      var n := |cards| - 1;
      var pre := cards[..n];
      DealsRoundRobin(pre);
      assert cards == pre + [cards[n]];
      if DealAll(pre).Dealt? {
        DealOneInTurn(DealAll(pre).t, pre, cards[n]);
      }
    }
  }

  lemma DealOneInTurn(t: Table, pre: seq<int>, c: int)
    requires Seated(t) && DealsInTurn(Dealt(t), pre)
    ensures DealsInTurn(DealOne(t, c), pre + [c])
  {
    FullWhen(t.hands, pre);
    if |pre| < SEATS * HAND_MAX {
      RoundRobinStep(t.hands, pre, t.turn, c);
    }
  }

  /** The table's game as it deals: to the first hand of the seat whose turn it is. */
  class Game {
    var hands: seq<seq<int>>
    var turn: nat

    constructor ()
      ensures Contents() == NewTable()
    {
      hands := seq(SEATS, _ => []);
      turn := 0;
    }

    function Contents(): Table
      reads this
    {
      Table(hands, turn)
    }

    /** The turn advances before the card is added.  False stands for the exception thrown by a full hand. */
    method DealCard(c: int) returns (ok: bool)
      requires Seated(Contents())
      modifies this
      ensures DealOne(old(Contents()), c) == if ok then Dealt(Contents()) else Terminated
    {
      var seat := turn;
      turn := turn + 1;
      if |hands[seat]| >= HAND_MAX {
        return false;
      }
      hands := hands[seat := hands[seat] + [c]];
      if turn >= |hands| {
        turn := 0;
      }
      return true;
    }
  }
}
