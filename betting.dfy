/**
 * The betting logic both games share (src/game.cpp, src/leduc.cpp):
 * the largest pot contribution, the end-of-round test, the premature end
 * after a fold, the count of seats still in play, the reset of the seats
 * between rounds, the choice of the next seat to act and the seat update of
 * take_action. Each is a loop over the seat array proved against a function
 * of the seats.
 */
module Betting {
  import opened Players
  import opened Actions

  // find_max_pot_contribution returns a uint8_t, cut modulo 0x100.

  /** m_pot += x on the uint16_t pot. */
  function AddToPot(pot: int, x: int): (r: int)
    ensures 0 <= r < 0x1_0000
  {
    (pot + x) % 0x1_0000
  }

  /** Adding nothing leaves a pot in range as it was. */
  lemma AddNothing(pot: int)
    requires 0 <= pot < 0x1_0000
    ensures AddToPot(pot, 0) == pot
  {
  }

  /** Every seat has a history to read its last action from. */
  predicate Started(ps: seq<Player>)
  {
    forall k :: 0 <= k < |ps| ==> ps[k].history != []
  }

  /** Every seat's history has its shape. */
  predicate Shaped(ps: seq<Player>)
  {
    forall k :: 0 <= k < |ps| ==> HistoryShape(ps[k].history)
  }

  /** What all seats have put in the pot. */
  function Contributions(ps: seq<Player>): int
  {
    if ps == [] then 0 else Contributions(ps[..|ps| - 1]) + ps[|ps| - 1].potContribution
  }

  /** Replacing one seat changes the total by that seat's change. */
  lemma {:induction false} ContributionsUpdate(ps: seq<Player>, k: int, p: Player)
    requires 0 <= k < |ps|
    ensures Contributions(ps[k := p]) == Contributions(ps) - ps[k].potContribution + p.potContribution
  {
    var qs := ps[k := p];
    if k < |ps| - 1 {
      assert qs[..|qs| - 1] == ps[..|ps| - 1][k := p];
      ContributionsUpdate(ps[..|ps| - 1], k, p);
    } else {
      assert qs[..|qs| - 1] == ps[..|ps| - 1];
    }
  }

  /** The largest contribution, 0 when nobody put anything in. */
  function MaxContribution(ps: seq<Player>): (m: int)
    ensures m >= 0 && forall k :: 0 <= k < |ps| ==> ps[k].potContribution <= m
    ensures m == 0 || exists k :: 0 <= k < |ps| && ps[k].potContribution == m
  {
    if ps == [] then 0
    else
      var m := MaxContribution(ps[..|ps| - 1]);
      var last := ps[|ps| - 1].potContribution;
      assert forall k :: 0 <= k < |ps| - 1 ==> ps[k] == ps[..|ps| - 1][k];
      if last > m then last else m
  }

  /** find_max_pot_contribution: the largest contribution, cut to a byte on return. */
  method FindMaxPotContribution(players: array<Player>) returns (m: int)
    ensures m == MaxContribution(players[..]) % 0x100
  {
    var max := 0;
    var i := 0;
    while i < players.Length
      invariant 0 <= i <= players.Length
      invariant max == MaxContribution(players[..i])
    {
      assert players[..i + 1][..i] == players[..i];
      if players[i].potContribution > max {
        max := players[i].potContribution;
      }
      i := i + 1;
    }
    assert players[..i] == players[..];
    m := max % 0x100;
  }

  /** The betting round is over: nobody has a raise to answer and everybody has acted. */
  predicate RoundOver(ps: seq<Player>)
  {
    forall k :: 0 <= k < |ps| ==> ps[k].state != ToCall && ps[k].state != NoAction
  }

  /** is_round_end. */
  method IsRoundEnd(players: array<Player>) returns (over: bool)
    ensures over <==> RoundOver(players[..])
  {
    var nooneToCall, allPlayed := true, true;
    for i := 0 to players.Length
      invariant nooneToCall <==> forall k :: 0 <= k < i ==> players[k].state != ToCall
      invariant allPlayed <==> forall k :: 0 <= k < i ==> players[k].state != NoAction
    {
      var state := players[i].state;
      if state == ToCall {
        nooneToCall := false;
      }
      if state == NoAction {
        allPlayed := false;
      }
    }
    over := nooneToCall && allPlayed;
  }

  /** A seat that still takes part in the betting of this round. */
  predicate Acting(s: State)
  {
    s == In || s == NoAction
  }

  /** How many seats are in or have not acted yet. */
  function Remaining(ps: seq<Player>): (n: nat)
    ensures n <= |ps|
  {
    if ps == [] then 0 else Remaining(ps[..|ps| - 1]) + (if Acting(ps[|ps| - 1].state) then 1 else 0)
  }

  /** count_remaining_players. */
  method CountRemainingPlayers(players: array<Player>) returns (count: int)
    ensures count == Remaining(players[..])
  {
    count := 0;
    for i := 0 to players.Length
      invariant count == Remaining(players[..i])
    {
      assert players[..i + 1][..i] == players[..i];
      if players[i].state == In || players[i].state == NoAction {
        count := count + 1;
      }
    }
    assert players[..players.Length] == players[..];
  }

  /** A seat that counts as acting adds one to the count. */
  lemma {:induction false} RemainingPositive(ps: seq<Player>, w: int)
    requires 0 <= w < |ps| && Acting(ps[w].state)
    ensures Remaining(ps) >= 1
  {
    if w < |ps| - 1 {
      assert ps[..|ps| - 1][w] == ps[w];
      RemainingPositive(ps[..|ps| - 1], w);
    }
  }

  /** How many seats have not folded. */
  function NotOut(ps: seq<Player>): (n: nat)
    ensures n <= |ps|
  {
    if ps == [] then 0 else NotOut(ps[..|ps| - 1]) + (if ps[|ps| - 1].state != Out then 1 else 0)
  }

  /** At a two-seat table the not-folded count is one for each seat that has not folded. */
  lemma NotOutOfTwo(ps: seq<Player>)
    requires |ps| == 2
    ensures NotOut(ps) == (if ps[0].state != Out then 1 else 0) + (if ps[1].state != Out then 1 else 0)
  {
    assert ps[..1][..0] == [];
    assert ps[..|ps| - 1] == ps[..1];
  }

  /** Two seats that have not folded count twice. */
  lemma {:induction false} NotOutTwo(ps: seq<Player>, a: int, b: int)
    requires 0 <= a < b < |ps| && ps[a].state != Out && ps[b].state != Out
    ensures NotOut(ps) >= 2
  {
    var pre := ps[..|ps| - 1];
    assert ps[a] == pre[a];
    if b < |ps| - 1 {
      assert ps[b] == pre[b];
      NotOutTwo(pre, a, b);
    } else {
      NotOutOne(pre, a);
    }
  }

  /** A seat that has not folded counts once. */
  lemma {:induction false} NotOutOne(ps: seq<Player>, a: int)
    requires 0 <= a < |ps| && ps[a].state != Out
    ensures NotOut(ps) >= 1
  {
    if a < |ps| - 1 {
      assert ps[..|ps| - 1][a] == ps[a];
      NotOutOne(ps[..|ps| - 1], a);
    }
  }

  /** When one seat has not folded, every other seat has. */
  lemma OnlySeatLeft(ps: seq<Player>, w: int)
    requires 0 <= w < |ps| && ps[w].state != Out && NotOut(ps) == 1
    ensures forall k :: 0 <= k < |ps| && k != w ==> ps[k].state == Out
  {
    forall k | 0 <= k < |ps| && k != w ensures ps[k].state == Out {
      if ps[k].state != Out {
        if k < w {
          NotOutTwo(ps, k, w);
        } else {
          NotOutTwo(ps, w, k);
        }
      }
    }
  }

  /**
   * check_premature_end: the hand ends early when exactly one seat has not
   * folded and that seat is in; it is the winner.
   */
  method CheckPrematureEnd(players: array<Player>) returns (finished: bool, winner: int)
    requires players.Length < 256
    ensures finished <==> NotOut(players[..]) == 1 && exists k :: 0 <= k < players.Length && players[k].state == In
    ensures finished ==> 0 <= winner < players.Length && players[winner].state == In
    ensures finished ==> forall k :: 0 <= k < players.Length && k != winner ==> players[k].state == Out
  {
    var nIn := 0;
    for i := 0 to players.Length
      invariant nIn == NotOut(players[..i])
    {
      assert players[..i + 1][..i] == players[..i];
      if players[i].state != Out {
        nIn := nIn + 1;
      }
    }
    assert players[..players.Length] == players[..];
    finished, winner := false, -1;
    if nIn == 1 {
      var i := 0;
      while i < players.Length
        invariant 0 <= i <= players.Length
        invariant forall k :: 0 <= k < i ==> players[k].state != In
      {
        if players[i].state == In {
          OnlySeatLeft(players[..], i);
          finished, winner := true, i;
          return;
        }
        i := i + 1;
      }
    }
  }

  /** The seat between rounds: in becomes no action yet, the raise counter is cleared, a new round opens in the history. */
  function ResetSeat(p: Player): Player
  {
    p.(state := if p.state == In then NoAction else p.state, nRaises := 0, history := p.history + "-")
  }

  /** reset_player_states. */
  method ResetPlayerStates(players: array<Player>)
    modifies players
    ensures forall k :: 0 <= k < players.Length ==> players[k] == ResetSeat(old(players[k]))
  {
    for i := 0 to players.Length
      invariant forall k :: 0 <= k < i ==> players[k] == ResetSeat(old(players[k]))
      invariant forall k :: i <= k < players.Length ==> players[k] == old(players[k])
    {
      var p := players[i];
      if p.state == In {
        p := p.(state := NoAction);
      }
      p := p.ResetCounters();
      p := p.ResetAction();
      players[i] := p;
    }
  }

  /** A raise puts every seat that is in or has not acted back to having to call. */
  function AlertSeat(p: Player): Player
  {
    if p.state == In || p.state == NoAction then p.(state := ToCall) else p
  }

  /** The seat loop of a raise. */
  method AlertSeats(players: array<Player>)
    modifies players
    ensures forall k :: 0 <= k < players.Length ==> players[k] == AlertSeat(old(players[k]))
  {
    for i := 0 to players.Length
      invariant forall k :: 0 <= k < i ==> players[k] == AlertSeat(old(players[k]))
      invariant forall k :: i <= k < players.Length ==> players[k] == old(players[k])
    {
      if players[i].state == In || players[i].state == NoAction {
        players[i] := players[i].(state := ToCall);
      }
    }
  }

  /** Every seat after the raise loop. */
  function AlertAll(ps: seq<Player>): (qs: seq<Player>)
    ensures |qs| == |ps| && forall k :: 0 <= k < |ps| ==> qs[k] == AlertSeat(ps[k])
  {
    if ps == [] then [] else AlertAll(ps[..|ps| - 1]) + [AlertSeat(ps[|ps| - 1])]
  }

  /** What the seat must add to match the largest contribution, as find_max_pot_contribution reports it. */
  function CallValue(ps: seq<Player>, cur: int): int
    requires 0 <= cur < |ps|
  {
    MaxContribution(ps) % 0x100 - ps[cur].potContribution
  }

  /** While the largest contribution fits a byte, a call adds exactly the difference to it. */
  lemma CallValueIs(ps: seq<Player>, cur: int)
    requires 0 <= cur < |ps| && MaxContribution(ps) < 0x100
    ensures CallValue(ps, cur) == MaxContribution(ps) - ps[cur].potContribution
  {
    SmallMod(MaxContribution(ps));
  }

  lemma SmallMod(m: int)
    requires 0 <= m < 0x100
    ensures m % 0x100 == m
  {
  }

  /** The last action of the seat before cur. */
  function PrevAction(ps: seq<Player>, cur: int): char
    requires |ps| == N_PLAYERS && 0 <= cur < |ps| && Started(ps)
  {
    ps[(cur + N_PLAYERS - 1) % N_PLAYERS].LastAction()
  }

  /** A call answering the seat's own raise is recorded as 'C', any other call as 'c'. */
  function CallTag(p: Player): char
    requires p.history != []
  {
    if ToLower(p.LastAction()) == 'r' then 'C' else 'c'
  }

  /** A raise after the previous seat bet or called is a reraise 'R', otherwise an opening raise 'r'. */
  function RaiseTag(prev: char): char
  {
    if prev != 'p' && prev != '-' then 'R' else 'r'
  }

  /** The acting seat after action a, as take_action leaves it. */
  function Acted(ps: seq<Player>, cur: int, a: Action, bigBlind: int): Player
    requires |ps| == N_PLAYERS && 0 <= cur < |ps| && Started(ps)
  {
    var p := ps[cur];
    if a.tag == 'p' then
      p.NewAction('p').(state := if p.state == ToCall then Out else In)
    else if a.tag == 'c' then
      p.(potContribution := p.potContribution + CallValue(ps, cur), state := In).NewAction(CallTag(p))
    else
      p.(potContribution := p.potContribution + CallValue(ps, cur) + RaiseValue(a, bigBlind), state := In)
        .IncreaseRaiseCounter().NewAction(RaiseTag(PrevAction(ps, cur)))
  }

  /** The seats after the seat cur takes action a, as take_action leaves them. */
  function AfterAction(ps: seq<Player>, cur: int, a: Action, bigBlind: int): (qs: seq<Player>)
    requires |ps| == N_PLAYERS && 0 <= cur < |ps| && Started(ps)
    ensures |qs| == |ps|
  {
    (if a.tag == 'p' || a.tag == 'c' then ps else AlertAll(ps))[cur := Acted(ps, cur, a, bigBlind)]
  }

  /** The raise: the action's multiplier of the big blind. */
  function RaiseValue(a: Action, bigBlind: int): int
  {
    a.multiplier * bigBlind
  }

  /** What the seat cur adds to the pot with action a. */
  function PotDelta(ps: seq<Player>, cur: int, a: Action, bigBlind: int): int
    requires 0 <= cur < |ps|
  {
    if a.tag == 'p' then 0
    else if a.tag == 'c' then CallValue(ps, cur)
    else CallValue(ps, cur) + RaiseValue(a, bigBlind)
  }

  /**
   * The seat update of take_action for the seat cur: a check or fold, a call
   * of the largest contribution, or a raise of multiplier big blinds on top
   * of it. The pot grows by what the seat adds, as a uint16_t; folded tells
   * whether the action was a fold, which is when the caller looks for a
   * premature end.
   */
  method Act(players: array<Player>, cur: int, a: Action, bigBlind: int, pot: int) returns (newPot: int, folded: bool)
    requires players.Length == N_PLAYERS && 0 <= cur < N_PLAYERS && Started(players[..])
    requires 0 <= pot < 0x1_0000
    modifies players
    ensures players[..] == AfterAction(old(players[..]), cur, a, bigBlind)
    ensures newPot == AddToPot(pot, PotDelta(old(players[..]), cur, a, bigBlind))
    ensures folded <==> a.tag == 'p' && old(players[cur].state) == ToCall
  {
    if a.tag == 'p' {
      AddNothing(pot);
      newPot := pot;
      folded := CheckOrFoldSeat(players, cur, a, bigBlind);
    } else if a.tag == 'c' {
      newPot := CallSeat(players, cur, a, bigBlind, pot);
      folded := false;
    } else {
      newPot := RaiseSeat(players, cur, a, bigBlind, pot);
      folded := false;
    }
  }

  /** The raise branch adds the call and the raise to the pot. */
  lemma RaiseDelta(ps: seq<Player>, cur: int, a: Action, bigBlind: int, call: int, raise: int, pot: int)
    requires 0 <= cur < |ps| && a.tag != 'p' && a.tag != 'c'
    requires call == CallValue(ps, cur) && raise == RaiseValue(a, bigBlind)
    ensures AddToPot(pot, call + raise) == AddToPot(pot, PotDelta(ps, cur, a, bigBlind))
  {
  }

  /** The raising seat, once the raise loop has run over it, ends as Acted says. */
  lemma RaisedActor(ps: seq<Player>, cur: int, a: Action, bigBlind: int, r: Player, prev: char)
    requires |ps| == N_PLAYERS && 0 <= cur < |ps| && Started(ps) && a.tag != 'p' && a.tag != 'c'
    requires r == AlertSeat(ps[cur].(potContribution := ps[cur].potContribution + CallValue(ps, cur) + RaiseValue(a, bigBlind)))
    requires prev == PrevAction(ps, cur)
    ensures r.history != []
    ensures r.(state := In).IncreaseRaiseCounter().NewAction(if prev != 'p' && prev != '-' then 'R' else 'r') == Acted(ps, cur, a, bigBlind)
  {
    var q := ps[cur].(potContribution := ps[cur].potContribution + CallValue(ps, cur) + RaiseValue(a, bigBlind), state := In);
    assert r.(state := In) == q;
  }

  /** The check-or-fold branch of take_action. */
  method CheckOrFoldSeat(players: array<Player>, cur: int, a: Action, bigBlind: int) returns (folded: bool)
    requires players.Length == N_PLAYERS && 0 <= cur < N_PLAYERS && Started(players[..]) && a.tag == 'p'
    modifies players
    ensures players[..] == AfterAction(old(players[..]), cur, a, bigBlind)
    ensures folded <==> old(players[cur].state) == ToCall
  {
    ghost var ps := players[..];
    var p := players[cur].NewAction('p');
    if p.state == ToCall {
      p := p.(state := Out);
      folded := true;
    } else {
      p := p.(state := In);
      folded := false;
    }
    assert p == Acted(ps, cur, a, bigBlind);
    players[cur] := p;
  }

  /** The call branch of take_action. */
  method CallSeat(players: array<Player>, cur: int, a: Action, bigBlind: int, pot: int) returns (newPot: int)
    requires players.Length == N_PLAYERS && 0 <= cur < N_PLAYERS && Started(players[..]) && a.tag == 'c'
    modifies players
    ensures players[..] == AfterAction(old(players[..]), cur, a, bigBlind)
    ensures newPot == AddToPot(pot, PotDelta(old(players[..]), cur, a, bigBlind))
  {
    ghost var ps := players[..];
    var max := FindMaxPotContribution(players);
    var call := max - players[cur].potContribution;
    assert call == PotDelta(ps, cur, a, bigBlind);
    newPot := AddToPot(pot, call);
    var p := players[cur].(potContribution := players[cur].potContribution + call, state := In);
    p := p.NewAction(if ToLower(p.LastAction()) == 'r' then 'C' else 'c');
    assert p == Acted(ps, cur, a, bigBlind);
    players[cur] := p;
  }

  /** The raise branch of take_action. */
  method RaiseSeat(players: array<Player>, cur: int, a: Action, bigBlind: int, pot: int) returns (newPot: int)
    requires players.Length == N_PLAYERS && 0 <= cur < N_PLAYERS && Started(players[..])
    requires a.tag != 'p' && a.tag != 'c'
    modifies players
    ensures players[..] == AfterAction(old(players[..]), cur, a, bigBlind)
    ensures newPot == AddToPot(pot, PotDelta(old(players[..]), cur, a, bigBlind))
  {
    ghost var ps := players[..];
    var prev := players[(cur + N_PLAYERS - 1) % N_PLAYERS].LastAction();
    assert prev == PrevAction(ps, cur);
    var raise := RaiseValue(a, bigBlind);
    var max := FindMaxPotContribution(players);
    var call := max - players[cur].potContribution;
    assert call == CallValue(ps, cur);
    RaiseDelta(ps, cur, a, bigBlind, call, raise, pot);
    newPot := AddToPot(pot, call + raise);
    players[cur] := players[cur].(potContribution := players[cur].potContribution + call + raise);
    ghost var raised := players[..];
    AlertSeats(players);
    forall k | 0 <= k < N_PLAYERS && k != cur ensures players[k] == AlertAll(ps)[k] {
      assert raised[k] == ps[k];
    }
    RaisedActor(ps, cur, a, bigBlind, players[cur], prev);
    var p := players[cur].(state := In);
    p := p.IncreaseRaiseCounter();
    p := p.NewAction(if prev != 'p' && prev != '-' then 'R' else 'r');
    players[cur] := p;
  }

  /** The pot keeps up with the seats: what the seats hold grows by exactly what the action adds. */
  lemma ActionPot(ps: seq<Player>, cur: int, a: Action, bigBlind: int)
    requires |ps| == N_PLAYERS && 0 <= cur < |ps| && Started(ps)
    ensures Contributions(AfterAction(ps, cur, a, bigBlind)) == Contributions(ps) + PotDelta(ps, cur, a, bigBlind)
  {
    var qs := AfterAction(ps, cur, a, bigBlind);
    if a.tag == 'p' || a.tag == 'c' {
      ContributionsUpdate(ps, cur, qs[cur]);
    } else {
      var alerted := AlertAll(ps);
      AlertKeepsContributions(ps);
      ContributionsUpdate(alerted, cur, qs[cur]);
    }
  }

  /** The raise loop changes no contribution. */
  lemma {:induction false} AlertKeepsContributions(ps: seq<Player>)
    ensures Contributions(AlertAll(ps)) == Contributions(ps)
  {
    if ps != [] {
      var qs := AlertAll(ps);
      assert qs[..|qs| - 1] == AlertAll(ps[..|ps| - 1]);
      AlertKeepsContributions(ps[..|ps| - 1]);
    }
  }

  /**
   * A check or fold: a seat facing a raise folds and is out, any other seat
   * checks and is in; 'p' is its action for the round and it puts nothing
   * in. Its cards and earlier rounds stay as they were.
   */
  lemma CheckOrFold(ps: seq<Player>, cur: int, a: Action, bigBlind: int)
    requires |ps| == N_PLAYERS && 0 <= cur < |ps| && Started(ps) && a.tag == 'p'
    ensures var q := AfterAction(ps, cur, a, bigBlind)[cur];
      && q.state == (if ps[cur].state == ToCall then Out else In) && q.LastAction() == 'p'
      && q == ps[cur].(state := q.state, history := q.history)
      && q.history[..|ps[cur].history| - 1] == ps[cur].history[..|ps[cur].history| - 1]
  {
    assert AfterAction(ps, cur, a, bigBlind)[cur] == Acted(ps, cur, a, bigBlind);
  }

  /**
   * A call brings the seat's contribution up to the largest one (when that
   * fits the byte find_max_pot_contribution returns) and keeps it in; the
   * round's action is 'c', or 'C' when the call answers a reraise of its own
   * raise.
   */
  lemma CallMatches(ps: seq<Player>, cur: int, a: Action, bigBlind: int)
    requires |ps| == N_PLAYERS && 0 <= cur < |ps| && Started(ps) && a.tag == 'c'
    requires MaxContribution(ps) < 0x100
    ensures var q := AfterAction(ps, cur, a, bigBlind)[cur];
      && q.state == In && q.potContribution == MaxContribution(ps) && q.LastAction() in "cC"
      && q == ps[cur].(state := In, potContribution := q.potContribution, history := q.history)
      && q.history[..|ps[cur].history| - 1] == ps[cur].history[..|ps[cur].history| - 1]
  {
    CallValueIs(ps, cur);
    assert AfterAction(ps, cur, a, bigBlind)[cur] == Acted(ps, cur, a, bigBlind);
  }

  /**
   * A raise puts multiplier big blinds on top of the largest contribution,
   * keeps the seat in and counts one more raise; the round's action is 'r',
   * or 'R' when the previous seat had bet or called.
   */
  lemma RaiseTops(ps: seq<Player>, cur: int, a: Action, bigBlind: int)
    requires |ps| == N_PLAYERS && 0 <= cur < |ps| && Started(ps) && a.tag != 'p' && a.tag != 'c'
    requires MaxContribution(ps) < 0x100
    ensures var q := AfterAction(ps, cur, a, bigBlind)[cur];
      && q.state == In && q.potContribution == MaxContribution(ps) + RaiseValue(a, bigBlind)
      && q.nRaises == ps[cur].nRaises + 1 && q.LastAction() in "rR"
      && q == ps[cur].(state := In, potContribution := q.potContribution, nRaises := q.nRaises, history := q.history)
      && q.history[..|ps[cur].history| - 1] == ps[cur].history[..|ps[cur].history| - 1]
  {
    assert AfterAction(ps, cur, a, bigBlind)[cur] == Acted(ps, cur, a, bigBlind);
    CallValueIs(ps, cur);
  }

  /**
   * What each action does to the other seats: a check, fold or call leaves
   * them as they were; a raise makes every one of them that was in or had
   * not acted answer it, and changes nothing else.
   */
  lemma ActionOnOthers(ps: seq<Player>, cur: int, a: Action, bigBlind: int, k: int)
    requires |ps| == N_PLAYERS && 0 <= cur < |ps| && Started(ps)
    requires 0 <= k < |ps| && k != cur
    ensures var q := AfterAction(ps, cur, a, bigBlind)[k];
      && ((a.tag == 'p' || a.tag == 'c') ==> q == ps[k])
      && (a.tag != 'p' && a.tag != 'c' ==>
            q == ps[k].(state := q.state) && q.state == (if Acting(ps[k].state) then ToCall else ps[k].state))
  {
  }

  /** The acting seat keeps its history shape. */
  lemma ActedShape(ps: seq<Player>, cur: int, a: Action, bigBlind: int)
    requires |ps| == N_PLAYERS && 0 <= cur < |ps| && Started(ps) && HistoryShape(ps[cur].history)
    ensures HistoryShape(Acted(ps, cur, a, bigBlind).history)
  {
    var p := ps[cur];
    var tag := ActedTag(ps, cur, a);
    NewActionKeepsShape(p, tag);
    ActedHistory(ps, cur, a, bigBlind);
  }

  /** The tag take_action records for the acting seat. */
  function ActedTag(ps: seq<Player>, cur: int, a: Action): char
    requires |ps| == N_PLAYERS && 0 <= cur < |ps| && Started(ps)
  {
    if a.tag == 'p' then 'p' else if a.tag == 'c' then CallTag(ps[cur]) else RaiseTag(PrevAction(ps, cur))
  }

  /** The acting seat's history is its history with the recorded tag. */
  lemma ActedHistory(ps: seq<Player>, cur: int, a: Action, bigBlind: int)
    requires |ps| == N_PLAYERS && 0 <= cur < |ps| && Started(ps)
    ensures Acted(ps, cur, a, bigBlind).history == ps[cur].NewAction(ActedTag(ps, cur, a)).history
  {
  }

  /** Every seat keeps its history shape through an action. */
  lemma ActionShape(ps: seq<Player>, cur: int, a: Action, bigBlind: int)
    requires |ps| == N_PLAYERS && 0 <= cur < |ps| && Shaped(ps)
    ensures Started(ps) && Shaped(AfterAction(ps, cur, a, bigBlind))
  {
    assert Started(ps);
    var qs := AfterAction(ps, cur, a, bigBlind);
    forall k | 0 <= k < |qs| ensures HistoryShape(qs[k].history) {
      if k == cur {
        ActedShape(ps, cur, a, bigBlind);
      } else {
        ActionOnOthers(ps, cur, a, bigBlind, k);
      }
    }
  }

  /** Every seat keeps its cards and its rank through an action. */
  lemma ActionKeepsCards(ps: seq<Player>, cur: int, a: Action, bigBlind: int)
    requires |ps| == N_PLAYERS && 0 <= cur < |ps| && Started(ps)
    ensures forall k :: 0 <= k < |ps| ==>
      var q := AfterAction(ps, cur, a, bigBlind)[k];
      q.cards == ps[k].cards && q.cardIdx == ps[k].cardIdx && q.rank == ps[k].rank && q.rankStr == ps[k].rankStr
  {
  }

  // -------------------------------------------------- who can still win

  /**
   * The seats of a hand in play: nobody is all in (no action makes a seat
   * all in), some seat has not folded, and while a seat has a raise to
   * answer some other seat is still in the betting.
   */
  predicate Contested(ps: seq<Player>)
  {
    && (forall k :: 0 <= k < |ps| ==> ps[k].state != AllIn)
    && (exists k :: 0 <= k < |ps| && ps[k].state != Out)
    && ((exists k :: 0 <= k < |ps| && ps[k].state == ToCall) ==> exists k :: 0 <= k < |ps| && Acting(ps[k].state))
  }

  /** Every action keeps the hand contested. */
  lemma ActionContested(ps: seq<Player>, cur: int, a: Action, bigBlind: int)
    requires |ps| == N_PLAYERS && 0 <= cur < |ps| && Started(ps) && Contested(ps)
    ensures Contested(AfterAction(ps, cur, a, bigBlind))
  {
    var qs := AfterAction(ps, cur, a, bigBlind);
    if a.tag == 'p' && ps[cur].state == ToCall {
      var j :| 0 <= j < |ps| && Acting(ps[j].state);
      assert j != cur && qs[j] == ps[j];
    } else {
      assert qs[cur].state == In;
    }
  }

  /** At the end of a round of a contested hand some seat is in: find_winner has someone to pick. */
  lemma RoundOverHasIn(ps: seq<Player>) returns (w: int)
    requires Contested(ps) && RoundOver(ps)
    ensures 0 <= w < |ps| && ps[w].state == In
  {
    w :| 0 <= w < |ps| && ps[w].state != Out;
  }

  /** The seats after every seat was reset. */
  function ResetAll(ps: seq<Player>): (qs: seq<Player>)
    ensures |qs| == |ps| && forall k :: 0 <= k < |ps| ==> qs[k] == ResetSeat(ps[k])
  {
    if ps == [] then [] else ResetAll(ps[..|ps| - 1]) + [ResetSeat(ps[|ps| - 1])]
  }

  /**
   * Resetting the seats at the end of a round of a contested hand: it stays
   * contested, nobody has a raise to answer, nobody in the betting has acted
   * yet, no contribution changes and every history opens a new round and
   * keeps its shape.
   */
  lemma ResetContested(ps: seq<Player>)
    requires Contested(ps) && RoundOver(ps) && Shaped(ps)
    ensures var qs := ResetAll(ps);
      && Contested(qs) && Shaped(qs) && Contributions(qs) == Contributions(ps)
      && forall k :: 0 <= k < |ps| ==> qs[k].state != ToCall && qs[k].nRaises == 0 && qs[k].LastAction() == '-'
  {
    ResetStillContested(ps);
    ResetShaped(ps);
    ResetKeepsContributions(ps);
    ResetOpensRound(ps);
  }

  lemma ResetShaped(ps: seq<Player>)
    requires Shaped(ps)
    ensures Shaped(ResetAll(ps))
  {
    var qs := ResetAll(ps);
    forall k | 0 <= k < |ps| ensures HistoryShape(qs[k].history) {
      ResetActionKeepsShape(ps[k]);
      assert qs[k].history == ps[k].ResetAction().history;
    }
  }

  lemma ResetOpensRound(ps: seq<Player>)
    requires RoundOver(ps)
    ensures var qs := ResetAll(ps);
      forall k :: 0 <= k < |ps| ==> qs[k].state != ToCall && qs[k].nRaises == 0 && qs[k].LastAction() == '-'
  {
  }

  lemma ResetStillContested(ps: seq<Player>)
    requires Contested(ps) && RoundOver(ps)
    ensures Contested(ResetAll(ps))
  {
    var qs := ResetAll(ps);
    var w := RoundOverHasIn(ps);
    assert qs[w].state == NoAction;
  }

  lemma {:induction false} ResetKeepsContributions(ps: seq<Player>)
    ensures Contributions(ResetAll(ps)) == Contributions(ps)
  {
    if ps != [] {
      var qs := ResetAll(ps);
      assert qs[..|qs| - 1] == ResetAll(ps[..|ps| - 1]);
      ResetKeepsContributions(ps[..|ps| - 1]);
    }
  }

  /** Two seats: the pot holds what both put in; one of them in the betting and neither all in keeps them contested. */
  lemma TwoSeats(ps: seq<Player>)
    requires |ps| == 2
    ensures Contributions(ps) == ps[0].potContribution + ps[1].potContribution
    ensures ps[0].state != AllIn && ps[1].state != AllIn && Acting(ps[1].state) ==> Contested(ps)
  {
    var first := ps[..1];
    assert first[..0] == [] && first[0] == ps[0];
    assert Contributions(first) == ps[0].potContribution;
    assert ps[..|ps| - 1] == first;
    if ps[0].state != AllIn && ps[1].state != AllIn && Acting(ps[1].state) {
      assert ps[1].state != Out;
    }
  }

  /** Adding the small blind to the big blind gives their sum as a uint16_t. */
  lemma BlindsPot(bigBlind: int, smallBlind: int, total: int)
    requires total == smallBlind + bigBlind
    ensures AddToPot(bigBlind, smallBlind) == total % 0x1_0000
  {
  }

  /** The pot is what the seats put in, as a uint16_t. */
  lemma PotStep(total: int, pot: int, delta: int, after: int)
    requires pot == total % 0x1_0000 && after == total + delta
    ensures AddToPot(pot, delta) == after % 0x1_0000
  {
    var q := total / 0x1_0000;
    assert total == q * 0x1_0000 + pot;
    assert pot + delta == (total + delta) - q * 0x1_0000;
  }

  /** The seats of a game: two of them, each with two card slots and a shaped history. */
  ghost predicate Seated(ps: seq<Player>)
  {
    |ps| == N_PLAYERS && (forall k :: 0 <= k < N_PLAYERS ==> |ps[k].cards| == 2) && Shaped(ps)
  }

  // -------------------------------------------------- the premature end

  /** The seat that is in, when there is one. */
  ghost function Survivor(ps: seq<Player>): (k: int)
    requires exists k :: 0 <= k < |ps| && ps[k].state == In
    ensures 0 <= k < |ps| && ps[k].state == In
  {
    var k :| 0 <= k < |ps| && ps[k].state == In; k
  }

  /**
   * check_premature_end after seat cur took action a: the action was a fold,
   * one seat has not folded, and that seat is in.
   */
  ghost predicate FoldEnds(ps: seq<Player>, cur: int, a: Action, bigBlind: int)
    requires |ps| == N_PLAYERS && 0 <= cur < N_PLAYERS && Started(ps)
  {
    var acted := AfterAction(ps, cur, a, bigBlind);
    && a.tag == 'p' && ps[cur].state == ToCall
    && NotOut(acted) == 1 && exists k :: 0 <= k < N_PLAYERS && acted[k].state == In
  }

  /** A fold that ends the hand leaves the survivor in and every other seat folded. */
  lemma FoldLeavesSurvivor(ps: seq<Player>, cur: int, a: Action, bigBlind: int)
    requires |ps| == N_PLAYERS && 0 <= cur < N_PLAYERS && Started(ps) && FoldEnds(ps, cur, a, bigBlind)
    ensures var acted := AfterAction(ps, cur, a, bigBlind);
      forall k :: 0 <= k < N_PLAYERS && k != Survivor(acted) ==> acted[k].state == Out
  {
    var acted := AfterAction(ps, cur, a, bigBlind);
    OnlySeatLeft(acted, Survivor(acted));
  }

  // -------------------------------------------------- the next seat

  /** A seat that can still act. */
  predicate Active(s: State)
  {
    s != Out && s != AllIn
  }

  /** A contested hand has a seat that can act. */
  lemma ContestedHasActive(ps: seq<Player>) returns (w: int)
    requires Contested(ps)
    ensures 0 <= w < |ps| && Active(ps[w].state)
  {
    w :| 0 <= w < |ps| && ps[w].state != Out;
  }

  /** The seat d places after current, going round a table of n seats. */
  function After(current: int, d: int, n: int): (k: int)
    requires 0 <= current < n && 0 <= d <= n
    ensures 0 <= k < n
  {
    if current + d < n then current + d else current + d - n
  }

  /** One step round the table. */
  lemma Wrap(x: int, n: int)
    requires 0 <= x < n
    ensures (x + 1) % n == if x + 1 < n then x + 1 else 0
  {
  }

  /**
   * The loop of next_player: the first seat after current, going round the
   * table, that has neither folded nor gone all in.
   */
  method NextActive(players: array<Player>, current: int) returns (next: int)
    requires 0 <= current < players.Length
    requires exists w :: 0 <= w < players.Length && Active(players[w].state)
    ensures 0 <= next < players.Length && Active(players[next].state)
    ensures exists d :: (1 <= d <= players.Length && next == After(current, d, players.Length)
                         && forall j :: 1 <= j < d ==> !Active(players[After(current, j, players.Length)].state))
  {
    var n := players.Length;
    var w :| 0 <= w < n && Active(players[w].state);
    ghost var dw := if w > current then w - current else w - current + n;
    assert w == After(current, dw, n);
    next := (current + 1) % n;
    ghost var d := 1;
    Wrap(current, n);
    while !Active(players[next].state)
      invariant 1 <= d <= dw && next == After(current, d, n)
      invariant forall j :: 1 <= j < d ==> !Active(players[After(current, j, n)].state)
      decreases dw - d
    {
      Wrap(next, n);
      next := (next + 1) % n;
      d := d + 1;
    }
  }

  /** Seats in the same states agree on whether the hand is contested and whether the round is over. */
  lemma SameStates(ps: seq<Player>, qs: seq<Player>)
    requires |ps| == |qs| && forall k :: 0 <= k < |ps| ==> qs[k].state == ps[k].state
    ensures Contested(qs) == Contested(ps) && RoundOver(qs) == RoundOver(ps)
  {
    if Contested(ps) {
      var j :| 0 <= j < |ps| && ps[j].state != Out;
      assert qs[j].state != Out;
      if exists k :: 0 <= k < |qs| && qs[k].state == ToCall {
        var k :| 0 <= k < |qs| && qs[k].state == ToCall;
        assert ps[k].state == ToCall;
        var i :| 0 <= i < |ps| && Acting(ps[i].state);
        assert Acting(qs[i].state);
      }
    }
    if Contested(qs) {
      var j :| 0 <= j < |qs| && qs[j].state != Out;
      assert ps[j].state != Out;
      if exists k :: 0 <= k < |ps| && ps[k].state == ToCall {
        var k :| 0 <= k < |ps| && ps[k].state == ToCall;
        assert qs[k].state == ToCall;
        var i :| 0 <= i < |qs| && Acting(qs[i].state);
        assert Acting(ps[i].state);
      }
    }
  }

  /** Seats with the same contributions put the same amount in the pot. */
  lemma {:induction false} SameContributions(ps: seq<Player>, qs: seq<Player>)
    requires |ps| == |qs| && forall k :: 0 <= k < |ps| ==> qs[k].potContribution == ps[k].potContribution
    ensures Contributions(qs) == Contributions(ps)
  {
    if ps != [] {
      SameContributions(ps[..|ps| - 1], qs[..|qs| - 1]);
    }
  }

}
