/** How many guesses at an action code the endpoint's cap of five allows under concurrency. */
module ActionOtpGuesses {
  import opened Numbers
  import opened Outcomes
  import opened ActionOtp
  import opened ActionOtpProofs

  /** The request compares a guess with the code: it found it, in time, at fewer than five misses. */
  predicate Compares(s: State, e: Event, id: Id) {
    e.ReadCode? && Enabled(s, e) && e.found == Some(id) && s.now <= s.rows[id].expiresAt && s.rows[id].attempts < MAX_ATTEMPTS
  }

  predicate GuessesWrong(s: State, e: Event, id: Id) { Compares(s, e, id) && !e.matches }

  /** The request breaks off between a wrong comparison and its count. */
  predicate LosesGuess(s: State, e: Event, id: Id) { e.Crash? && Enabled(s, e) && s.requests[e.rid].phase == Phase.Failing(id) }

  function WrongGuesses(s: State, events: seq<Event>, id: Id): nat
    decreases |events|
  {
    if events == [] then 0 else Count(GuessesWrong(s, events[0], id)) + WrongGuesses(Apply(s, events[0]), events[1..], id)
  }

  function LostGuesses(s: State, events: seq<Event>, id: Id): nat
    decreases |events|
  {
    if events == [] then 0 else Count(LosesGuess(s, events[0], id)) + LostGuesses(Apply(s, events[0]), events[1..], id)
  }

  /** The requests that have compared wrongly and are about to count it. */
  function Overlapping(s: State, id: Id): set<Rid> {
    set r | r in s.requests && s.requests[r].phase == Phase.Failing(id)
  }

  predicate PeakAtMost(s: State, events: seq<Event>, id: Id, k: nat)
    decreases |events|
  {
    |Overlapping(s, id)| <= k && (events == [] || PeakAtMost(Apply(s, events[0]), events[1..], id, k))
  }

  // ---- The bound --------------------------------------------------------------------

  /** After `wrong` comparisons, `lost` of them never counted: while the code can still be guessed,
      each is counted, about to be, or lost; afterwards they are at most what the last overlap allowed. */
  ghost predicate Bounded(s: State, id: Id, k: nat, wrong: nat, lost: nat) {
    && |Overlapping(s, id)| <= k
    && (id !in s.issued || s.issued[id].action == None ==> wrong == lost == 0 && Overlapping(s, id) == {})
    && (id in s.rows && s.rows[id].action.Some? && s.rows[id].attempts < MAX_ATTEMPTS ==>
          wrong == s.rows[id].attempts + |Overlapping(s, id)| + lost)
    && wrong <= k + MAX_ATTEMPTS - 1 + lost
  }

  /** One step moves at most one request into or out of the overlap. */
  lemma OverlapStep(s: State, e: Event, id: Id)
    requires Inv(s)
    ensures var before, after := Overlapping(s, id), Overlapping(Apply(s, e), id);
            if GuessesWrong(s, e, id) then after == before + {e.rid} && e.rid !in before
            else if Enabled(s, e) && (e.Increment? || e.Crash?) && e.rid in before then after == before - {e.rid}
            else after == before
  {}

  lemma RowStep(s: State, e: Event, id: Id)
    requires Inv(s)
    ensures var next := Apply(s, e);
            && (id in s.issued ==> id in next.issued && next.issued[id] == s.issued[id])
            && (id in next.rows && id !in s.rows ==> id !in s.issued && next.rows[id].attempts == 0)
            && (id in next.rows && id in s.rows && s.rows[id].action.Some? ==>
                  next.rows[id].action == s.rows[id].action &&
                  next.rows[id].attempts == s.rows[id].attempts
                    + Count(e.Increment? && Enabled(s, e) && e.rid in Overlapping(s, id) && s.rows[id].attempts < MAX_ATTEMPTS))
  {}

  lemma StepBounded(s: State, e: Event, id: Id, k: nat, wrong: nat, lost: nat)
    requires Inv(s) && Bounded(s, id, k, wrong, lost) && |Overlapping(Apply(s, e), id)| <= k
    ensures Bounded(Apply(s, e), id, k, wrong + Count(GuessesWrong(s, e, id)), lost + Count(LosesGuess(s, e, id)))
  {
    if id !in s.issued {
      NewIsFresh(s, e, id);
    } else {
      IssuedStepBounded(s, e, id, k, wrong, lost);
    }
  }

  lemma IssuedStepBounded(s: State, e: Event, id: Id, k: nat, wrong: nat, lost: nat)
    requires Inv(s) && Bounded(s, id, k, wrong, lost) && |Overlapping(Apply(s, e), id)| <= k && id in s.issued
    ensures Bounded(Apply(s, e), id, k, wrong + Count(GuessesWrong(s, e, id)), lost + Count(LosesGuess(s, e, id)))
  {
    OverlapSize(s, e, id);
    RowStep(s, e, id);
    if GuessesWrong(s, e, id) { GuessIsAtScopedRow(s, e, id); }
    LostIsOverlapping(s, e, id);
    hide Apply, Overlapping, Enabled, Inv, GuessesWrong, LosesGuess;
  }

  lemma OverlapSize(s: State, e: Event, id: Id)
    requires Inv(s)
    ensures |Overlapping(Apply(s, e), id)| == |Overlapping(s, id)| + Count(GuessesWrong(s, e, id))
              - Count(Enabled(s, e) && (e.Increment? || e.Crash?) && e.rid in Overlapping(s, id))
    ensures GuessesWrong(s, e, id) ==> !(e.Increment? || e.Crash?)
    ensures |Overlapping(s, id)| == 0 <==> Overlapping(s, id) == {}
    ensures |Overlapping(Apply(s, e), id)| == 0 <==> Overlapping(Apply(s, e), id) == {}
  {
    OverlapStep(s, e, id);
    hide Apply, Overlapping, Enabled, Inv;
  }

  lemma LostIsOverlapping(s: State, e: Event, id: Id)
    ensures LosesGuess(s, e, id) <==> e.Crash? && Enabled(s, e) && e.rid in Overlapping(s, id)
  {}

  lemma GuessIsAtScopedRow(s: State, e: Event, id: Id)
    requires Inv(s) && GuessesWrong(s, e, id)
    ensures id in s.rows && s.rows[id].action.Some? && s.rows[id].attempts < MAX_ATTEMPTS && s.issued[id].action.Some?
    ensures Apply(s, e).rows == s.rows
  {}

  lemma NewIsFresh(s: State, e: Event, id: Id)
    requires Inv(s) && id !in s.issued
    ensures !GuessesWrong(s, e, id) && !LosesGuess(s, e, id) && Overlapping(s, id) == {} && Overlapping(Apply(s, e), id) == {}
    ensures id in Apply(s, e).rows ==> Apply(s, e).rows[id].attempts == 0
  {}

  lemma {:induction false} RunBounded(s: State, events: seq<Event>, id: Id, k: nat, wrong: nat, lost: nat)
    requires Inv(s) && Bounded(s, id, k, wrong, lost) && PeakAtMost(s, events, id, k)
    ensures wrong + WrongGuesses(s, events, id) <= k + MAX_ATTEMPTS - 1 + lost + LostGuesses(s, events, id)
    decreases |events|
  {
    hide Inv, Apply, Overlapping, GuessesWrong, LosesGuess;
    if events != [] {
      var e, next := events[0], Apply(s, events[0]);
      StepKeepsInv(s, e);
      assert |Overlapping(next, id)| <= k by { PeakHolds(next, events[1..], id, k); }
      StepBounded(s, e, id, k, wrong, lost);
      RunBounded(next, events[1..], id, k, wrong + Count(GuessesWrong(s, e, id)), lost + Count(LosesGuess(s, e, id)));
    }
  }

  lemma PeakHolds(s: State, events: seq<Event>, id: Id, k: nat)
    requires PeakAtMost(s, events, id, k)
    ensures |Overlapping(s, id)| <= k
  {}

  /** With at most k requests at a time between a wrong comparison and its count, a code is guessed
      wrongly at most k + 4 times, plus once for each such request that breaks off: one request after
      the other gets the promised five guesses. */
  lemma GuessesAreBoundedByOverlap(s: State, events: seq<Event>, id: Id, k: nat)
    requires Fresh(s) && PeakAtMost(s, events, id, k)
    ensures WrongGuesses(s, events, id) <= k + MAX_ATTEMPTS - 1 + LostGuesses(s, events, id)
  {
    FreshIsInv(s);
    assert Overlapping(s, id) == {};
    RunBounded(s, events, id, k, 0, 0);
  }

  // ---- Minting late -----------------------------------------------------------------

  lemma {:induction false} RunSnoc(s: State, events: seq<Event>, e: Event)
    ensures Run(s, events + [e]) == Apply(Run(s, events), e)
    decreases |events|
  {
    hide Apply;
    if events == [] {
      assert events + [e] == [e];
      assert Run(s, [e]) == Run(Apply(s, e), []);
    } else {
      assert (events + [e])[1..] == events[1..] + [e];
      RunSnoc(Apply(s, events[0]), events[1..], e);
    }
  }

  predicate HasRead(phase: Phase, id: Id) { phase == Phase.Consuming(id) || phase == Phase.Minting(id) }

  lemma HasReadStep(s: State, e: Event, rid: Rid, id: Id)
    requires rid in Apply(s, e).requests && HasRead(Apply(s, e).requests[rid].phase, id)
    ensures (rid in s.requests && HasRead(s.requests[rid].phase, id))
         || (e == ReadCode(rid, Some(id), true) && Compares(s, e, id))
  {}

  /** Every mint belongs to a request that found the code unused, in time and missed fewer than five
      times, and whose guess was right. */
  lemma {:induction false} MintWasReadInTime(s: State, events: seq<Event>, rid: Rid, id: Id) returns (n: nat)
    requires s.requests == map[] && rid in Run(s, events).requests && HasRead(Run(s, events).requests[rid].phase, id)
    ensures n < |events| && events[n] == ReadCode(rid, Some(id), true) && Compares(Run(s, events[..n]), events[n], id)
    decreases |events|
  {
    hide Apply, Compares, HasRead;
    n := |events| - 1;
    var before, e := events[..n], events[n];
    assert events == before + [e];
    RunSnoc(s, before, e);
    HasReadStep(Run(s, before), e, rid, id);
    if rid in Run(s, before).requests && HasRead(Run(s, before).requests[rid].phase, id) {
      n := MintWasReadInTime(s, before, rid, id);
      assert before[..n] == events[..n];
    }
  }

  lemma {:induction false} UserWasRead(s: State, events: seq<Event>, rid: Rid) returns (u: nat)
    requires s.requests == map[] && rid in Run(s, events).requests && Run(s, events).requests[rid].phase.UserRead?
    ensures u < |events| && events[u] == ReadUser(rid, UserOk)
    decreases |events|
  {
    u := |events| - 1;
    var before, e := events[..u], events[u];
    assert events == before + [e];
    RunSnoc(s, before, e);
    UserReadStep(Run(s, before), e, rid);
    hide Apply;
    if e != ReadUser(rid, UserOk) {
      u := UserWasRead(s, before, rid);
    }
  }

  lemma UserReadStep(s: State, e: Event, rid: Rid)
    requires rid in Apply(s, e).requests && Apply(s, e).requests[rid].phase.UserRead?
    ensures e == ReadUser(rid, UserOk) || (rid in s.requests && s.requests[rid].phase.UserRead?)
  {}

  predicate IssuesRow(s: State, e: Event, id: Id, row: Row) {
    e == Issue(id, row.userId, row.action) && Enabled(s, e) && row.expiresAt == s.now + CODE_LIFETIME_MS
  }

  lemma RowStepOrigin(s: State, e: Event, id: Id)
    requires id in Apply(s, e).rows
    ensures var row := Apply(s, e).rows[id];
      || IssuesRow(s, e, id, row)
      || (id in s.rows && s.rows[id].userId == row.userId && s.rows[id].action == row.action && s.rows[id].expiresAt == row.expiresAt)
  {}

  lemma {:induction false} RowWasIssued(s: State, events: seq<Event>, id: Id) returns (i: nat)
    requires s.rows == map[] && id in Run(s, events).rows
    ensures i < |events| && IssuesRow(Run(s, events[..i]), events[i], id, Run(s, events).rows[id])
    decreases |events|
  {
    hide Apply;
    i := |events| - 1;
    var before, e := events[..i], events[i];
    assert events == before + [e];
    RunSnoc(s, before, e);
    RowStepOrigin(Run(s, before), e, id);
    if !IssuesRow(Run(s, before), e, id, Run(s, events).rows[id]) {
      i := RowWasIssued(s, before, id);
      assert before[..i] == events[..i];
    }
  }

  /** Every mint belongs to a request whose user was found in good standing, and then guessed right at a
      code issued to that user for that action at most five minutes before. */
  lemma MintPassedEveryCheck(s: State, events: seq<Event>, rid: Rid, id: Id) returns (i: nat, u: nat, n: nat)
    requires Fresh(s) && rid in Run(s, events).requests && HasRead(Run(s, events).requests[rid].phase, id)
    ensures i < n < |events| && u < n && events[u] == ReadUser(rid, UserOk) && events[n] == ReadCode(rid, Some(id), true)
    ensures var r := Run(s, events).requests[rid];
            events[i] == Issue(id, r.userId, Some(r.action)) && Enabled(Run(s, events[..i]), events[i])
    ensures Run(s, events[..n]).now <= Run(s, events[..i]).now + 5 * 60 * 1000
  {
    n := MintWasReadInTime(s, events, rid, id);
    var before := events[..n];
    u := UserWasRead(s, before, rid);
    i := RowWasIssued(s, before, id);
    assert before[..i] == events[..i];
    assert events == before + events[n..];
    RunConcat(s, before, events[n..]);
    RequestKeepsScope(Run(s, before), events[n..], rid);
  }

  lemma {:induction false} RunConcat(s: State, events: seq<Event>, more: seq<Event>)
    ensures Run(s, events + more) == Run(Run(s, events), more)
    decreases |events|
  {
    hide Apply;
    if events == [] {
      assert events + more == more;
    } else {
      assert (events + more)[1..] == events[1..] + more;
      RunConcat(Apply(s, events[0]), events[1..], more);
    }
  }

  lemma {:induction false} RequestKeepsScope(s: State, events: seq<Event>, rid: Rid)
    requires rid in s.requests
    ensures var end := Run(s, events);
            rid in end.requests && end.requests[rid].userId == s.requests[rid].userId && end.requests[rid].action == s.requests[rid].action
    decreases |events|
  {
    if events != [] { RequestKeepsScope(Apply(s, events[0]), events[1..], rid); }
  }

  /** Some continuation mints a token from the code. */
  ghost predicate CanMint(s: State, id: Id) {
    exists events: seq<Event>, i: nat :: |s.tokens| <= i < |Run(s, events).tokens| && Run(s, events).tokens[i].source == id
  }

  /** A mint can follow the fifth miss exactly when the code is unused and a request that read it
      before, with the right guess, has yet to consume it. */
  lemma MintAfterFifthMissExactly(s: State, id: Id)
    requires Inv(s) && id in s.rows && s.rows[id].action.Some? && s.rows[id].attempts == MAX_ATTEMPTS
    ensures CanMint(s, id) <==> !s.rows[id].isUsed && exists r :: r in s.requests && s.requests[r].phase == Phase.Consuming(id)
  {
    if r :| r in s.requests && s.requests[r].phase == Phase.Consuming(id) && !s.rows[id].isUsed {
      ConsumeThenMint(s, r, id);
    } else {
      assert Dead(s, id) by { hide RowsOk, TokensOk, ReportsOk; }
      forall events: seq<Event>, i: nat | |s.tokens| <= i < |Run(s, events).tokens| ensures Run(s, events).tokens[i].source != id {
        DeadNeverMints(s, events, id);
      }
    }
  }

  lemma ConsumeThenMint(s: State, r: Rid, id: Id)
    requires id in s.rows && !s.rows[id].isUsed && r in s.requests && s.requests[r].phase == Phase.Consuming(id)
    ensures var end := Run(s, [Consume(r), Mint(r)]);
            end.tokens == s.tokens + [Token(s.requests[r].userId, s.requests[r].action, id)]
    ensures CanMint(s, id)
  {
    var events := [Consume(r), Mint(r)];
    assert events[1..] == [Mint(r)] && [Mint(r)][1..] == [];
    var consumed := Apply(s, Consume(r));
    assert Run(s, events) == Run(consumed, [Mint(r)]) == Apply(consumed, Mint(r));
    var end := Run(s, events);
    assert end.tokens[|s.tokens|].source == id;
  }

  // ---- The bound is reached, and the code still mints -------------------------------

  /** The newest open code of its scope, not expired; request ids from `next` on are free. */
  ghost predicate Scene(s: State, id: Id, next: Rid) {
    && id in s.rows && s.rows[id].action.Some? && !s.rows[id].isUsed && s.now <= s.rows[id].expiresAt
    && QueryAnswers(s.rows, s.rows[id].userId, s.rows[id].action.value, Some(id))
    && forall r :: r in s.requests ==> r < next
  }

  /** The run leads from `s` to `t` with so many wrong guesses, none lost, and the overlap bounded. */
  ghost predicate Leads(s: State, events: seq<Event>, t: State, id: Id, wrong: nat, k: nat) {
    && Run(s, events) == t && WrongGuesses(s, events, id) == wrong && LostGuesses(s, events, id) == 0
    && PeakAtMost(s, events, id, k)
  }

  lemma {:induction false} LeadsOn(s: State, events: seq<Event>, t: State, more: seq<Event>, u: State, id: Id, wrong: nat, further: nat, k: nat)
    requires Leads(s, events, t, id, wrong, k) && Leads(t, more, u, id, further, k)
    ensures Leads(s, events + more, u, id, wrong + further, k)
    decreases |events|
  {
    hide Apply, GuessesWrong, LosesGuess, Overlapping;
    if events == [] {
      assert events + more == more;
    } else {
      assert (events + more)[1..] == events[1..] + more;
      var first := Count(GuessesWrong(s, events[0], id));
      LeadsOn(Apply(s, events[0]), events[1..], t, more, u, id, wrong - first, further, k);
    }
  }

  lemma LeadsByOne(s: State, e: Event, id: Id, k: nat)
    requires |Overlapping(s, id)| <= k && |Overlapping(Apply(s, e), id)| <= k && !LosesGuess(s, e, id)
    ensures Leads(s, [e], Apply(s, e), id, Count(GuessesWrong(s, e, id)), k)
  {
    hide Apply, GuessesWrong, LosesGuess, Overlapping;
    var next := Apply(s, e);
    assert [e][1..] == [];
    assert Run(s, [e]) == Run(next, []) == next;
    assert WrongGuesses(next, [], id) == 0 && LostGuesses(next, [], id) == 0 && PeakAtMost(next, [], id, k);
  }

  /** A request that guesses: three steps up to the comparison. */
  function Guess(s: State, id: Id, rid: Rid, matches: bool): seq<Event>
    requires id in s.rows && s.rows[id].action.Some?
  {
    [Arrive(rid, s.rows[id].userId, s.rows[id].action.value), ReadUser(rid, UserOk), ReadCode(rid, Some(id), matches)]
  }

  function Guessed(s: State, id: Id, rid: Rid, matches: bool): State
    requires id in s.rows && s.rows[id].action.Some?
  {
    s.(requests := s.requests[rid := Request(s.rows[id].userId, s.rows[id].action.value,
                                             if matches then Phase.Consuming(id) else Phase.Failing(id))])
  }

  lemma GuessLeads(s: State, id: Id, rid: Rid, matches: bool, k: nat)
    requires Scene(s, id, rid) && s.rows[id].attempts < MAX_ATTEMPTS && |Overlapping(s, id)| + Count(!matches) <= k
    ensures Leads(s, Guess(s, id, rid, matches), Guessed(s, id, rid, matches), id, Count(!matches), k)
    ensures Scene(Guessed(s, id, rid, matches), id, rid + 1)
    ensures Overlapping(Guessed(s, id, rid, matches), id) == Overlapping(s, id) + (if matches then {} else {rid})
    ensures rid !in Overlapping(s, id)
  {
    var events, t := Guess(s, id, rid, matches), Guessed(s, id, rid, matches);
    var a, b, c := events[0], events[1], events[2];
    var s1, s2 := GuessSteps(s, id, rid, matches);
    hide Apply, Compares, Overlapping, Scene, LosesGuess, GuessesWrong, Leads;
    LeadsByOne(s, a, id, k);
    LeadsByOne(s1, b, id, k);
    LeadsByOne(s2, c, id, k);
    LeadsOn(s, [a], s1, [b], s2, id, 0, 0, k);
    assert [a] + [b] == [a, b] && [a, b] + [c] == events;
    LeadsOn(s, [a, b], s2, [c], t, id, 0, Count(!matches), k);
  }

  lemma GuessSteps(s: State, id: Id, rid: Rid, matches: bool) returns (s1: State, s2: State)
    requires Scene(s, id, rid) && s.rows[id].attempts < MAX_ATTEMPTS
    ensures var events, t := Guess(s, id, rid, matches), Guessed(s, id, rid, matches);
      && Apply(s, events[0]) == s1 && Apply(s1, events[1]) == s2 && Apply(s2, events[2]) == t
      && !GuessesWrong(s, events[0], id) && !GuessesWrong(s1, events[1], id) && (GuessesWrong(s2, events[2], id) <==> !matches)
      && !LosesGuess(s, events[0], id) && !LosesGuess(s1, events[1], id) && !LosesGuess(s2, events[2], id)
      && Overlapping(s1, id) == Overlapping(s2, id) == Overlapping(s, id)
      && Overlapping(t, id) == Overlapping(s, id) + (if matches then {} else {rid}) && rid !in Overlapping(s, id)
      && Scene(t, id, rid + 1)
  {
    var user, action := s.rows[id].userId, s.rows[id].action.value;
    s1 := s.(requests := s.requests[rid := Request(user, action, Arrived)]);
    s2 := s.(requests := s.requests[rid := Request(user, action, UserRead)]);
    assert Compares(s2, ReadCode(rid, Some(id), matches), id);
    assert Scene(Guessed(s, id, rid, matches), id, rid + 1);
    OverlapSet(s, s1, id, rid);
    OverlapSet(s, s2, id, rid);
    OverlapSet(s, Guessed(s, id, rid, matches), id, rid);
    hide QueryAnswers, Overlapping;
  }

  lemma OverlapSet(s: State, t: State, id: Id, rid: Rid)
    requires rid !in s.requests && rid in t.requests && t.requests == s.requests[rid := t.requests[rid]]
    ensures Overlapping(t, id) == Overlapping(s, id) + (if t.requests[rid].phase == Phase.Failing(id) then {rid} else {})
    ensures rid !in Overlapping(s, id)
  {}

  /** Within its five minutes an issued code that nobody has consumed and no newer one superseded, missed
      fewer than five times, mints a token for the next request that guesses it, whatever else went on. */
  lemma RightGuessMints(s: State, id: Id, user: string, action: string, events: seq<Event>, rid: Rid)
    requires Inv(s) && Enabled(s, Issue(id, user, Some(action)))
    requires NeverEnds(Apply(s, Issue(id, user, Some(action))), events, id)
    requires var end := Run(Apply(s, Issue(id, user, Some(action))), events);
      && end.now <= s.now + 5 * 60 * 1000 && (id in end.rows ==> end.rows[id].attempts < MAX_ATTEMPTS)
      && forall r :: r in end.requests ==> r < rid
    ensures var end := Run(Apply(s, Issue(id, user, Some(action))), events);
      var request := [Arrive(rid, user, action), ReadUser(rid, UserOk), ReadCode(rid, Some(id), true), Consume(rid), Mint(rid)];
      Run(end, request).tokens == end.tokens + [Token(user, action, id)]
  {
    var issued := Apply(s, Issue(id, user, Some(action)));
    IssuedIsUsable(s, id, user, action);
    UsableUntilConsumedOrSuperseded(issued, events, id);
    RowKeepsScope(issued, events, id);
    var end := Run(issued, events);
    assert Scene(end, id, rid);
    hide Apply, Run, Inv, Usable, Current, NeverEnds;
    GuessThenMint(end, id, rid);
    assert Guess(end, id, rid, true) + [Consume(rid), Mint(rid)]
        == [Arrive(rid, user, action), ReadUser(rid, UserOk), ReadCode(rid, Some(id), true), Consume(rid), Mint(rid)];
  }

  lemma GuessThenMint(s: State, id: Id, rid: Rid)
    requires Scene(s, id, rid) && s.rows[id].attempts < MAX_ATTEMPTS
    ensures Run(s, Guess(s, id, rid, true) + [Consume(rid), Mint(rid)]).tokens
         == s.tokens + [Token(s.rows[id].userId, s.rows[id].action.value, id)]
  {
    GuessLeads(s, id, rid, true, |Overlapping(s, id)|);
    ConsumeThenMint(Guessed(s, id, rid, true), rid, id);
    RunConcat(s, Guess(s, id, rid, true), [Consume(rid), Mint(rid)]);
  }

  lemma {:induction false} RowKeepsScope(s: State, events: seq<Event>, id: Id)
    requires id in s.rows && id in s.issued
    ensures var end := Run(s, events);
            id in end.rows ==> end.rows[id].userId == s.rows[id].userId && end.rows[id].action == s.rows[id].action
    decreases |events|
  {
    if events != [] {
      var next := Apply(s, events[0]);
      if id in next.rows { RowKeepsScope(next, events[1..], id); } else { GoneForGood(next, events[1..], id); }
    }
  }

  lemma {:induction false} GoneForGood(s: State, events: seq<Event>, id: Id)
    requires id in s.issued && id !in s.rows
    ensures id !in Run(s, events).rows
    decreases |events|
  {
    if events != [] { GoneForGood(Apply(s, events[0]), events[1..], id); }
  }

  // ---- Rounds of guesses ------------------------------------------------------------

  /** `n` requests that all compare wrongly before any of them counts. */
  function Readers(s: State, id: Id, rid: Rid, n: nat): seq<Event>
    requires id in s.rows && s.rows[id].action.Some?
    decreases n
  {
    if n == 0 then [] else Guess(s, id, rid, false) + Readers(s, id, rid + 1, n - 1)
  }

  function Counts(rid: Rid, n: nat): seq<Event>
    decreases n
  {
    if n == 0 then [] else [Increment(rid)] + Counts(rid + 1, n - 1)
  }

  /** The requests of `t` are those of `s` and, from `rid` on, `n` in the overlap. */
  ghost predicate Joined(s: State, t: State, id: Id, rid: Rid, n: nat) {
    && t == s.(requests := t.requests)
    && (forall r :: r < rid ==> (r in t.requests <==> r in s.requests) && (r in t.requests ==> t.requests[r] == s.requests[r]))
    && (forall r :: rid <= r < rid + n ==> r in t.requests && t.requests[r].phase == Phase.Failing(id))
  }

  lemma {:induction false} ReadersLead(s: State, id: Id, rid: Rid, n: nat, k: nat) returns (t: State)
    requires Scene(s, id, rid) && s.rows[id].attempts < MAX_ATTEMPTS && |Overlapping(s, id)| + n <= k
    ensures Leads(s, Readers(s, id, rid, n), t, id, n, k)
    ensures Scene(t, id, rid + n) && Joined(s, t, id, rid, n) && |Overlapping(t, id)| == |Overlapping(s, id)| + n
    decreases n
  {
    hide Leads, Guess, Overlapping, QueryAnswers;
    if n == 0 {
      t := s;
      LeadsNowhere(s, id, k);
    } else {
      GuessLeads(s, id, rid, false, k);
      var one := Guessed(s, id, rid, false);
      t := ReadersLead(one, id, rid + 1, n - 1, k);
      SameReaders(s, one, id, rid + 1, n - 1);
      LeadsOn(s, Guess(s, id, rid, false), one, Readers(one, id, rid + 1, n - 1), t, id, 1, n - 1, k);
    }
  }

  lemma LeadsNowhere(s: State, id: Id, k: nat)
    requires |Overlapping(s, id)| <= k
    ensures Leads(s, [], s, id, 0, k)
  {}

  lemma {:induction false} SameReaders(s: State, t: State, id: Id, rid: Rid, n: nat)
    requires id in s.rows && s.rows[id].action.Some? && id in t.rows
    requires s.rows[id].userId == t.rows[id].userId && s.rows[id].action == t.rows[id].action
    ensures Readers(s, id, rid, n) == Readers(t, id, rid, n)
    decreases n
  {
    if n > 0 { SameReaders(s, t, id, rid + 1, n - 1); }
  }

  /** What counting leaves: attempts up to the cap, the others' requests as they were. */
  ghost predicate CountedOff(s: State, t: State, id: Id, rid: Rid, n: nat)
    requires id in s.rows
  {
    && id in t.rows && t.rows == s.rows[id := s.rows[id].(attempts := t.rows[id].attempts)]
    && t.now == s.now && t.tokens == s.tokens && t.issued == s.issued && t.requests.Keys == s.requests.Keys
    && (forall r :: r in s.requests && !(rid <= r < rid + n) ==> t.requests[r] == s.requests[r])
  }

  lemma {:induction false} CountsLead(s: State, id: Id, rid: Rid, n: nat, k: nat) returns (t: State)
    requires id in s.rows && 0 <= s.rows[id].attempts <= MAX_ATTEMPTS && |Overlapping(s, id)| <= k
    requires forall r :: rid <= r < rid + n ==> r in s.requests && s.requests[r].phase == Phase.Failing(id)
    ensures Leads(s, Counts(rid, n), t, id, 0, k) && CountedOff(s, t, id, rid, n)
    ensures |Overlapping(t, id)| == |Overlapping(s, id)| - n
    ensures t.rows[id].attempts == if s.rows[id].attempts + n < MAX_ATTEMPTS then s.rows[id].attempts + n else MAX_ATTEMPTS
    decreases n
  {
    hide Leads, Overlapping, Apply;
    if n == 0 {
      t := s;
      LeadsNowhere(s, id, k);
    } else {
      var one := CountStep(s, id, rid);
      LeadsByOne(s, Increment(rid), id, k);
      t := CountsLead(one, id, rid + 1, n - 1, k);
      LeadsOn(s, [Increment(rid)], one, Counts(rid + 1, n - 1), t, id, 0, 0, k);
    }
  }

  lemma CountStep(s: State, id: Id, rid: Rid) returns (t: State)
    requires id in s.rows && 0 <= s.rows[id].attempts <= MAX_ATTEMPTS
    requires rid in s.requests && s.requests[rid].phase == Phase.Failing(id)
    ensures t == Apply(s, Increment(rid)) && CountedOff(s, t, id, rid, 1)
    ensures |Overlapping(t, id)| == |Overlapping(s, id)| - 1
    ensures t.rows[id].attempts == if s.rows[id].attempts < MAX_ATTEMPTS then s.rows[id].attempts + 1 else MAX_ATTEMPTS
    ensures !LosesGuess(s, Increment(rid), id) && !GuessesWrong(s, Increment(rid), id)
  {
    t := Apply(s, Increment(rid));
    assert rid in Overlapping(s, id) && Overlapping(t, id) == Overlapping(s, id) - {rid};
  }

  /** A round: `n` requests compare wrongly, then all of them count. */
  lemma RoundLeads(s: State, id: Id, rid: Rid, n: nat, k: nat) returns (events: seq<Event>, t: State)
    requires Scene(s, id, rid) && 0 <= s.rows[id].attempts < MAX_ATTEMPTS && Overlapping(s, id) == {} && n <= k
    ensures Leads(s, events, t, id, n, k) && Scene(t, id, rid + n) && Overlapping(t, id) == {} && t.tokens == s.tokens
    ensures t.rows[id].attempts == if s.rows[id].attempts + n < MAX_ATTEMPTS then s.rows[id].attempts + n else MAX_ATTEMPTS
    ensures forall r :: r in s.requests && r < rid ==> r in t.requests && t.requests[r] == s.requests[r]
  {
    var mid := ReadersLead(s, id, rid, n, k);
    t := CountsLead(mid, id, rid, n, k);
    SceneStays(mid, t, id, rid, n);
    hide Leads, Scene, Overlapping;
    LeadsOn(s, Readers(s, id, rid, n), mid, Counts(rid, n), t, id, n, 0, k);
    events := Readers(s, id, rid, n) + Counts(rid, n);
  }

  lemma SceneStays(s: State, t: State, id: Id, rid: Rid, n: nat)
    requires Scene(s, id, rid + n) && CountedOff(s, t, id, rid, n)
    ensures Scene(t, id, rid + n)
  {}

  /** One request after the other: four misses leave the code open. */
  lemma {:induction false} SequentialMisses(s: State, id: Id, rid: Rid, n: nat, k: nat) returns (events: seq<Event>, t: State)
    requires Scene(s, id, rid) && 0 <= s.rows[id].attempts && s.rows[id].attempts + n < MAX_ATTEMPTS && Overlapping(s, id) == {} && k >= 1
    ensures Leads(s, events, t, id, n, k) && Scene(t, id, rid + n) && Overlapping(t, id) == {} && t.tokens == s.tokens
    ensures t.rows[id].attempts == s.rows[id].attempts + n
    decreases n
  {
    hide Leads, Overlapping, QueryAnswers;
    if n == 0 {
      events, t := [], s;
      LeadsNowhere(s, id, k);
    } else {
      var first, mid := RoundLeads(s, id, rid, 1, k);
      var rest;
      rest, t := SequentialMisses(mid, id, rid + 1, n - 1, k);
      LeadsOn(s, first, mid, rest, t, id, 1, n - 1, k);
      events := first + rest;
    }
  }

  /** The bound is met for every overlap k, and the fifth miss does not end the code: after four
      misses a request reads it with the right guess, k more compare wrongly at once, the first of
      them counts the fifth miss, and the right guess still mints. */
  lemma OverlapBoundIsReached(s: State, id: Id, user: string, action: string, k: nat) returns (events: seq<Event>)
    requires Fresh(s) && k >= 1
    ensures PeakAtMost(s, events, id, k) && LostGuesses(s, events, id) == 0
    ensures WrongGuesses(s, events, id) == k + MAX_ATTEMPTS - 1
    ensures |Run(s, events).tokens| == 1 && Run(s, events).tokens[0].source == id
  {
    var issue := Issue(id, user, Some(action));
    var s0 := Apply(s, issue);
    IssueSetsScene(s, id, user, action, k);
    var misses, s1 := SequentialMisses(s0, id, 0, 4, k);
    LeadsOn(s, [issue], s0, misses, s1, id, 0, 4, k);
    var lucky, s2 := Guess(s1, id, 4, true), Guessed(s1, id, 4, true);
    GuessLeads(s1, id, 4, true, k);
    LeadsOn(s, [issue] + misses, s1, lucky, s2, id, 4, 0, k);
    var crowd, s3 := RoundLeads(s2, id, 5, k, k);
    LeadsOn(s, [issue] + misses + lucky, s2, crowd, s3, id, 4, k, k);
    var last, end := LateMint(s3, id, 4, k);
    LeadsOn(s, [issue] + misses + lucky + crowd, s3, last, end, id, 4 + k, 0, k);
    events := [issue] + misses + lucky + crowd + last;
  }

  lemma IssueSetsScene(s: State, id: Id, user: string, action: string, k: nat)
    requires Fresh(s)
    ensures var issue := Issue(id, user, Some(action));
      var t := Apply(s, issue);
      && Leads(s, [issue], t, id, 0, k) && Scene(t, id, 0) && t.rows[id].attempts == 0 && Overlapping(t, id) == {} && t.tokens == []
  {
    var issue := Issue(id, user, Some(action));
    assert Overlapping(s, id) == {} && Overlapping(Apply(s, issue), id) == {};
    LeadsByOne(s, issue, id, k);
  }

  lemma LateMint(s: State, id: Id, rid: Rid, k: nat) returns (events: seq<Event>, t: State)
    requires id in s.rows && !s.rows[id].isUsed && rid in s.requests && s.requests[rid].phase == Phase.Consuming(id)
    requires |Overlapping(s, id)| <= k
    ensures Leads(s, events, t, id, 0, k)
    ensures t.tokens == s.tokens + [Token(s.requests[rid].userId, s.requests[rid].action, id)]
  {
    events := [Consume(rid), Mint(rid)];
    var mid := Apply(s, Consume(rid));
    t := Apply(mid, Mint(rid));
    assert Overlapping(mid, id) == Overlapping(s, id) && Overlapping(t, id) == Overlapping(s, id);
    LeadsByOne(s, Consume(rid), id, k);
    LeadsByOne(mid, Mint(rid), id, k);
    LeadsOn(s, [Consume(rid)], mid, [Mint(rid)], t, id, 0, 0, k);
    assert [Consume(rid)] + [Mint(rid)] == events;
  }
}
