/** Tool registration (static/webmcp.js): `reconcile` calls that interleave at every await of the
    browser's registerTool. */
module WebMcp {
  import opened Common

  type Name = string

  /** A suspended call: the name and controller it awaits, and the names left in its loop. */
  datatype Call = Call(current: Name, controller: nat, rest: seq<Name>)

  /** The page's shared variables, the suspended calls, and what is only remembered to speak about
      them: the name each controller was made for, the latest call, and the names the browser
      rejected while they were wanted since that call began. */
  datatype Page = Page(
    registrations: map<Name, nat>, desired: set<Name>, aborted: set<nat>, names: seq<Name>,
    suspended: map<nat, Call>, started: nat, rejected: set<Name>)

  const BLANK := Page(map[], {}, {}, [], map[], 0, {})

  // ----- one run of the loop up to its next await -----

  /** desiredTools: the server's tools that have a definition. */
  function DesiredTools(serverTools: seq<Name>, definitions: set<Name>): seq<Name> {
    if serverTools == [] then []
    else (if serverTools[0] in definitions then [serverTools[0]] else []) + DesiredTools(serverTools[1..], definitions)
  }

  /** new Set(list), in insertion order. */
  function Distinct(list: seq<Name>): seq<Name> {
    if list == [] then []
    else
      var init := Distinct(list[..|list| - 1]);
      if list[|list| - 1] in init then init else init + [list[|list| - 1]]
  }

  function Wanted(names: seq<Name>): set<Name> {
    set n | n in names
  }

  /** Skip registered names; reserve the first other one and suspend on it, or finish. */
  function Continue(page: Page, id: nat, names: seq<Name>): Page
    decreases |names|
  {
    if names == [] then page
    else if names[0] in page.registrations then Continue(page, id, names[1..])
    else
      page.(registrations := page.registrations[names[0] := |page.names|],
            names := page.names + [names[0]],
            suspended := page.suspended[id := Call(names[0], |page.names|, names[1..])])
  }

  /** Abort and forget every registration that is no longer wanted. */
  function Withdraw(page: Page, desired: set<Name>): Page {
    page.(registrations := map n | n in page.registrations && n in desired :: page.registrations[n],
          aborted := page.aborted + set n | n in page.registrations && n !in desired :: page.registrations[n],
          desired := desired)
  }

  /** The page when a call has withdrawn what is unwanted and is about to run its loop. */
  function Opened(page: Page, names: seq<Name>): Page {
    Withdraw(page, Wanted(names)).(started := page.started + 1, rejected := {})
  }

  function Start(page: Page, names: seq<Name>): Page {
    Continue(Opened(page, names), page.started, names)
  }

  /** What a call does with the browser's answer before it goes on with its loop. */
  function Answer(page: Page, call: Call, accepted: bool): Page {
    if accepted && call.controller !in page.aborted && call.current in page.desired then page
    else
      page.(aborted := page.aborted + {call.controller},
            registrations := if call.current in page.registrations && page.registrations[call.current] == call.controller
                             then page.registrations - {call.current} else page.registrations,
            rejected := if !accepted && call.current in page.desired then page.rejected + {call.current} else page.rejected)
  }

  function Settle(page: Page, id: nat, accepted: bool): Page
    requires id in page.suspended
  {
    var call := page.suspended[id];
    Continue(Answer(page.(suspended := page.suspended - {id}), call, accepted), id, call.rest)
  }

  // ----- the page object -----

  class ModelContextPage {
    var registrations: map<Name, nat>
    var currentDesired: set<Name>
    var aborted: set<nat>
    var names: seq<Name>
    var suspended: map<nat, Call>
    var started: nat
    var rejected: set<Name>

    function View(): Page
      reads this
    {
      Page(registrations, currentDesired, aborted, names, suspended, started, rejected)
    }

    constructor ()
      ensures View() == BLANK
    {
      registrations, currentDesired, aborted, names := map[], {}, {}, [];
      suspended, started, rejected := map[], 0, {};
    }

    /** The registration loop of one call, up to its next await or its end. */
    method RegisterFrom(id: nat, wanted: seq<Name>)
      modifies this
      ensures View() == Continue(old(View()), id, wanted)
    {
      var rest := wanted;
      while rest != []
        invariant View() == old(View())
        invariant Continue(old(View()), id, wanted) == Continue(View(), id, rest)
        decreases |rest|
      {
        var name := rest[0];
        rest := rest[1..];
        if name !in registrations {
          var controller := |names|;
          names := names + [name];
          registrations := registrations[name := controller];
          suspended := suspended[id := Call(name, controller, rest)];
          return;
        }
      }
    }

    method WithdrawUnwanted(desired: set<Name>)
      modifies this
      ensures View() == Withdraw(old(View()), desired)
    {
      currentDesired := desired;
      var rest := registrations.Keys;
      while rest != {}
        invariant rest <= old(registrations).Keys
        invariant View() == old(View()).(desired := desired, registrations := registrations, aborted := aborted)
        invariant registrations == map n | n in old(registrations) && (n in desired || n in rest) :: old(registrations)[n]
        invariant aborted == old(aborted) + set n | n in old(registrations) && n !in desired && n !in rest :: old(registrations)[n]
        decreases |rest|
      {
        var name :| name in rest;
        rest := rest - {name};
        if name !in desired {
          aborted := aborted + {registrations[name]};
          registrations := registrations - {name};
        }
      }
    }

    method Reconcile(serverTools: seq<Name>, definitions: set<Name>)
      modifies this
      ensures View() == Start(old(View()), Distinct(DesiredTools(serverTools, definitions)))
    {
      var desired := Distinct(DesiredTools(serverTools, definitions));
      WithdrawUnwanted(Wanted(desired));
      var id := started;
      started, rejected := id + 1, {};
      RegisterFrom(id, desired);
    }

    /** The continuation after an await: the browser accepted or rejected the registration. */
    method Resume(id: nat, accepted: bool)
      requires id in suspended
      modifies this
      ensures View() == Settle(old(View()), id, accepted)
    {
      var call := suspended[id];
      suspended := suspended - {id};
      if !accepted || call.controller in aborted || call.current !in currentDesired {
        aborted := aborted + {call.controller};
        if call.current in registrations && registrations[call.current] == call.controller {
          registrations := registrations - {call.current};
        }
        if !accepted && call.current in currentDesired {
          rejected := rejected + {call.current};
        }
      }
      RegisterFrom(id, call.rest);
    }
  }

  // ----- the invariant -----

  /** A controller is un-aborted exactly when it is the one stored for its name. */
  ghost predicate Owned(page: Page, c: nat)
    requires c < |page.names|
  {
    c !in page.aborted <==> page.names[c] in page.registrations && page.registrations[page.names[c]] == c
  }

  ghost predicate CallOk(page: Page, id: nat)
    requires id in page.suspended
  {
    var call := page.suspended[id];
    id < page.started && call.controller < |page.names| && page.names[call.controller] == call.current
  }

  /** A registered name is wanted, or some suspended call holds it and will give it up. */
  ghost predicate Accounted(page: Page, n: Name)
    requires n in page.registrations
  {
    n in page.desired || exists id :: Holding(page, id, n)
  }

  ghost predicate Holding(page: Page, id: nat, n: Name)
    requires n in page.registrations
  {
    id in page.suspended && page.suspended[id].current == n && page.suspended[id].controller == page.registrations[n]
  }

  /** A wanted name is registered, still ahead of the latest call, or was rejected. */
  ghost predicate Pursued(page: Page, n: Name) {
    || n in page.registrations || n in page.rejected
    || (page.started > 0 && page.started - 1 in page.suspended && n in page.suspended[page.started - 1].rest)
  }

  ghost predicate Inv(page: Page) {
    && (forall n :: n in page.registrations ==>
          page.registrations[n] < |page.names| && page.names[page.registrations[n]] == n)
    && (forall c :: 0 <= c < |page.names| ==> Owned(page, c))
    && (forall c :: c in page.aborted ==> c < |page.names|)
    && (forall id :: id in page.suspended ==> CallOk(page, id))
    && (forall n :: n in page.registrations ==> Accounted(page, n))
    && (forall n :: n in page.desired ==> Pursued(page, n))
  }

  /** What holds while call `id` runs its loop with `names` ahead of it. */
  ghost predicate Running(page: Page, id: nat, names: seq<Name>) {
    && id < page.started && id !in page.suspended
    && (forall n :: n in page.registrations ==>
          page.registrations[n] < |page.names| && page.names[page.registrations[n]] == n)
    && (forall c :: 0 <= c < |page.names| ==> Owned(page, c))
    && (forall c :: c in page.aborted ==> c < |page.names|)
    && (forall i :: i in page.suspended ==> CallOk(page, i))
    && (forall n :: n in page.registrations ==> Accounted(page, n))
    && (forall n :: n in page.desired ==> Pursued(page, n) || (id == page.started - 1 && n in names))
  }

  lemma {:induction false} ContinueKeepsInv(page: Page, id: nat, names: seq<Name>)
    requires Running(page, id, names)
    ensures Inv(Continue(page, id, names))
    decreases |names|
  {
    if names != [] {
      if names[0] in page.registrations {
        ContinueKeepsInv(page, id, names[1..]);
      } else {
        ReserveKeepsInv(page, id, names);
      }
    }
  }

  lemma ReserveKeepsInv(page: Page, id: nat, names: seq<Name>)
    requires Running(page, id, names) && names != [] && names[0] !in page.registrations
    ensures Inv(Continue(page, id, names))
  {
    var page' := Continue(page, id, names);
    forall c | 0 <= c < |page'.names|
      ensures Owned(page', c)
    {
      assert c < |page.names| ==> Owned(page, c);
    }
    forall i | i in page'.suspended
      ensures CallOk(page', i)
    {
      assert i != id ==> CallOk(page, i);
    }
    forall n | n in page'.registrations
      ensures Accounted(page', n)
    {
      if n == names[0] {
        assert Holding(page', id, n);
      } else {
        assert Accounted(page, n);
        if n !in page.desired {
          var i :| Holding(page, i, n);
          assert Holding(page', i, n);
        }
      }
    }
    forall n | n in page'.desired
      ensures Pursued(page', n)
    {
      assert Pursued(page, n) || n in names;
    }
  }

  lemma StartRuns(page: Page, names: seq<Name>)
    requires Inv(page)
    ensures Running(Opened(page, names), page.started, names)
  {
    var mid := Opened(page, names);
    forall c | 0 <= c < |mid.names|
      ensures Owned(mid, c)
    {
      assert Owned(page, c);
    }
    forall i | i in mid.suspended
      ensures CallOk(mid, i)
    {
      assert CallOk(page, i);
    }
  }

  lemma StartKeepsInv(page: Page, names: seq<Name>)
    requires Inv(page)
    ensures Inv(Start(page, names))
  {
    StartRuns(page, names);
    ContinueKeepsInv(Opened(page, names), page.started, names);
  }

  lemma SettleRuns(page: Page, id: nat, accepted: bool)
    requires Inv(page) && id in page.suspended
    ensures Running(Answer(page.(suspended := page.suspended - {id}), page.suspended[id], accepted), id, page.suspended[id].rest)
  {
    var call := page.suspended[id];
    assert CallOk(page, id);
    var mid := Answer(page.(suspended := page.suspended - {id}), call, accepted);
    forall c | 0 <= c < |mid.names|
      ensures Owned(mid, c)
    {
      assert Owned(page, c) && Owned(page, call.controller);
    }
    forall i | i in mid.suspended
      ensures CallOk(mid, i)
    {
      assert CallOk(page, i);
    }
    forall n | n in mid.registrations
      ensures Accounted(mid, n)
    {
      assert Accounted(page, n);
      if n !in page.desired {
        var i :| Holding(page, i, n);
        assert Holding(mid, i, n);
      }
    }
    forall n | n in mid.desired
      ensures Pursued(mid, n) || (id == mid.started - 1 && n in call.rest)
    {
      assert Pursued(page, n);
      if n in page.registrations && n !in mid.registrations {
        assert Owned(page, call.controller);
      } else if page.started > 0 && page.started - 1 in page.suspended && n in page.suspended[page.started - 1].rest
                && id != page.started - 1 {
        assert mid.suspended[page.started - 1] == page.suspended[page.started - 1];
      }
    }
  }

  lemma SettleKeepsInv(page: Page, id: nat, accepted: bool)
    requires Inv(page) && id in page.suspended
    ensures Inv(Settle(page, id, accepted))
  {
    var call := page.suspended[id];
    SettleRuns(page, id, accepted);
    ContinueKeepsInv(Answer(page.(suspended := page.suspended - {id}), call, accepted), id, call.rest);
  }

  // ----- every interleaving -----

  /** A server state arrives and starts a call, or the browser answers a suspended one. */
  datatype Event = StateArrived(serverTools: seq<Name>) | Answered(id: nat, accepted: bool)

  function Happen(page: Page, definitions: set<Name>, e: Event): Page {
    match e
    case StateArrived(tools) => Start(page, Distinct(DesiredTools(tools, definitions)))
    case Answered(id, accepted) => if id in page.suspended then Settle(page, id, accepted) else page
  }

  function Reach(definitions: set<Name>, es: seq<Event>): Page
    decreases |es|
  {
    if es == [] then BLANK else Happen(Reach(definitions, es[..|es| - 1]), definitions, es[|es| - 1])
  }

  lemma {:induction false} ReachInv(definitions: set<Name>, es: seq<Event>)
    ensures Inv(Reach(definitions, es))
    decreases |es|
  {
    if es != [] {
      ReachInv(definitions, es[..|es| - 1]);
      var before := Reach(definitions, es[..|es| - 1]);
      match es[|es| - 1]
      case StateArrived(tools) => StartKeepsInv(before, Distinct(DesiredTools(tools, definitions)));
      case Answered(id, accepted) =>
        if id in before.suspended {
          SettleKeepsInv(before, id, accepted);
        }
    }
  }

  /** At every moment a controller is un-aborted exactly when it is the one stored for its name, so
      at most one registration per tool is live. */
  lemma LiveIsStored(definitions: set<Name>, es: seq<Event>, c: nat, d: nat)
    requires c < |Reach(definitions, es).names| && d < |Reach(definitions, es).names|
    ensures var page := Reach(definitions, es);
            && (c !in page.aborted
                <==> page.names[c] in page.registrations && page.registrations[page.names[c]] == c)
            && (c !in page.aborted && d !in page.aborted && page.names[c] == page.names[d] ==> c == d)
  {
    ReachInv(definitions, es);
    assert Owned(Reach(definitions, es), c) && Owned(Reach(definitions, es), d);
  }

  /** The tools the last server state asked for. */
  function LastWanted(definitions: set<Name>, es: seq<Event>): set<Name>
    decreases |es|
  {
    if es == [] then {}
    else match es[|es| - 1]
      case StateArrived(tools) => set n | n in tools && n in definitions
      case Answered(_, _) => LastWanted(definitions, es[..|es| - 1])
  }

  lemma {:induction false} ContinueKeepsDesired(page: Page, id: nat, names: seq<Name>)
    ensures Continue(page, id, names).desired == page.desired && Continue(page, id, names).rejected == page.rejected
    ensures forall i :: i != id ==> (i in Continue(page, id, names).suspended <==> i in page.suspended)
    ensures forall i :: i != id && i in page.suspended ==> Continue(page, id, names).suspended[i] == page.suspended[i]
    ensures id !in page.suspended && id in Continue(page, id, names).suspended
            ==> |Continue(page, id, names).suspended[id].rest| < |names|
    decreases |names|
  {
    if names != [] && names[0] in page.registrations {
      ContinueKeepsDesired(page, id, names[1..]);
    }
  }

  lemma {:induction false} DesiredToolsMembers(tools: seq<Name>, definitions: set<Name>)
    ensures forall n :: n in DesiredTools(tools, definitions) <==> n in tools && n in definitions
  {
    if tools != [] {
      DesiredToolsMembers(tools[1..], definitions);
      assert tools == [tools[0]] + tools[1..];
    }
  }

  lemma {:induction false} DistinctMembers(list: seq<Name>)
    ensures forall n :: n in Distinct(list) <==> n in list
    ensures forall i, j :: 0 <= i < j < |Distinct(list)| ==> Distinct(list)[i] != Distinct(list)[j]
    decreases |list|
  {
    if list != [] {
      DistinctMembers(list[..|list| - 1]);
      assert list == list[..|list| - 1] + [list[|list| - 1]];
    }
  }

  lemma StartKeepsWanted(page: Page, names: seq<Name>)
    ensures Start(page, names).desired == Wanted(names) && Start(page, names).rejected == {}
  {
    ContinueKeepsDesired(Opened(page, names), page.started, names);
  }

  lemma SettleKeepsDesired(page: Page, id: nat, accepted: bool)
    requires id in page.suspended
    ensures var page', call := Settle(page, id, accepted), page.suspended[id];
            && page'.desired == page.desired
            && page'.rejected == page.rejected + (if !accepted && call.current in page.desired then {call.current} else {})
  {
    var call := page.suspended[id];
    ContinueKeepsDesired(Answer(page.(suspended := page.suspended - {id}), call, accepted), id, call.rest);
  }

  lemma {:induction false} DesiredIsLastWanted(definitions: set<Name>, es: seq<Event>)
    ensures Reach(definitions, es).desired == LastWanted(definitions, es)
    decreases |es|
  {
    if es != [] {
      var before := Reach(definitions, es[..|es| - 1]);
      DesiredIsLastWanted(definitions, es[..|es| - 1]);
      match es[|es| - 1]
      case StateArrived(tools) =>
        DesiredToolsMembers(tools, definitions);
        DistinctMembers(DesiredTools(tools, definitions));
        StartKeepsWanted(before, Distinct(DesiredTools(tools, definitions)));
      case Answered(id, accepted) =>
        if id in before.suspended {
          SettleKeepsDesired(before, id, accepted);
        }
    }
  }

  /** Names whose wanted registration the browser rejected since the last server state. */
  function RejectedSince(definitions: set<Name>, es: seq<Event>): set<Name>
    decreases |es|
  {
    if es == [] || es[|es| - 1].StateArrived? then {}
    else
      var before, e := Reach(definitions, es[..|es| - 1]), es[|es| - 1];
      RejectedSince(definitions, es[..|es| - 1])
      + (if !e.accepted && e.id in before.suspended then {before.suspended[e.id].current} else {})
  }

  lemma {:induction false} RejectedIsRemembered(definitions: set<Name>, es: seq<Event>)
    ensures Reach(definitions, es).rejected == RejectedSince(definitions, es) * LastWanted(definitions, es)
    decreases |es|
  {
    if es != [] {
      var before := Reach(definitions, es[..|es| - 1]);
      RejectedIsRemembered(definitions, es[..|es| - 1]);
      DesiredIsLastWanted(definitions, es[..|es| - 1]);
      match es[|es| - 1]
      case StateArrived(tools) => StartKeepsWanted(before, Distinct(DesiredTools(tools, definitions)));
      case Answered(id, accepted) =>
        if id in before.suspended {
          SettleKeepsDesired(before, id, accepted);
        }
    }
  }

  /** When no call is suspended, the registered tools are among the last desired ones, and are
      exactly those unless a still-wanted registration was rejected since. */
  lemma QuiescentPageMatchesServer(definitions: set<Name>, es: seq<Event>)
    requires Reach(definitions, es).suspended == map[]
    ensures Reach(definitions, es).registrations.Keys <= LastWanted(definitions, es)
    ensures LastWanted(definitions, es) - Reach(definitions, es).registrations.Keys <= RejectedSince(definitions, es)
  {
    var page := Reach(definitions, es);
    ReachInv(definitions, es);
    DesiredIsLastWanted(definitions, es);
    RejectedIsRemembered(definitions, es);
    forall n | n in page.registrations
      ensures n in page.desired
    {
      assert Accounted(page, n);
    }
    forall n | n in page.desired && n !in page.registrations
      ensures n in RejectedSince(definitions, es)
    {
      assert Pursued(page, n);
    }
  }

  // ----- what the browser accepted -----

  /** What the browser answered to the registration with controller c, if it has. */
  function AnswerTo(definitions: set<Name>, es: seq<Event>, c: nat): Option<bool>
    decreases |es|
  {
    if es == [] then None
    else
      var before, e := Reach(definitions, es[..|es| - 1]), es[|es| - 1];
      if e.Answered? && e.id in before.suspended && before.suspended[e.id].controller == c then Some(e.accepted)
      else AnswerTo(definitions, es[..|es| - 1], c)
  }

  ghost predicate Awaited(page: Page, c: nat) {
    exists id :: id in page.suspended && page.suspended[id].controller == c
  }

  /** Controller c is the latest attempt at the name it was made for. */
  ghost predicate Latest(page: Page, c: nat) {
    c < |page.names| && forall d :: c < d < |page.names| ==> page.names[d] != page.names[c]
  }

  /** The latest attempt at n was rejected. */
  ghost predicate LatestRejected(page: Page, answer: nat -> Option<bool>, n: Name) {
    exists c: nat :: Latest(page, c) && page.names[c] == n && answer(c) == Some(false)
  }

  /** Each attempt has one await or one answer, a rejected one is aborted, and a stored one is the
      latest of its name. */
  ghost predicate AttemptsOk(page: Page, answer: nat -> Option<bool>) {
    && (forall c: nat :: c >= |page.names| ==> answer(c).None?)
    && (forall c: nat :: c < |page.names| ==> (answer(c).None? <==> Awaited(page, c)))
    && (forall c: nat :: answer(c) == Some(false) ==> c in page.aborted)
    && (forall i, j :: i in page.suspended && j in page.suspended && i != j ==>
          page.suspended[i].controller != page.suspended[j].controller)
    && (forall n :: n in page.registrations ==> Latest(page, page.registrations[n]))
  }

  /** A wanted name is registered, still ahead of the latest call, or its latest attempt was rejected. */
  ghost predicate Tried(page: Page, rejected: bool, n: Name) {
    || n in page.registrations || rejected
    || (page.started > 0 && page.started - 1 in page.suspended && n in page.suspended[page.started - 1].rest)
  }

  ghost predicate TriedAll(page: Page, answer: nat -> Option<bool>) {
    forall n :: n in page.desired ==> Tried(page, LatestRejected(page, answer, n), n)
  }

  /** The same while call `id` runs its loop with `names` ahead of it. */
  ghost predicate TriedOrAhead(page: Page, answer: nat -> Option<bool>, id: nat, names: seq<Name>) {
    forall n :: n in page.desired ==> Tried(page, LatestRejected(page, answer, n), n) || (id == page.started - 1 && n in names)
  }

  lemma ReserveKeepsAttempts(page: Page, id: nat, names: seq<Name>, answer: nat -> Option<bool>)
    requires Running(page, id, names) && AttemptsOk(page, answer) && names != [] && names[0] !in page.registrations
    ensures AttemptsOk(Continue(page, id, names), answer)
  {
    var page', c := Continue(page, id, names), |page.names|;
    assert forall i :: i in page.suspended ==> CallOk(page, i) && page'.suspended[i] == page.suspended[i];
    assert page'.suspended[id].controller == c;
    forall d: nat | d < |page'.names|
      ensures answer(d).None? <==> Awaited(page', d)
    {
      if d < c && Awaited(page, d) {
        var i :| i in page.suspended && page.suspended[i].controller == d;
        assert page'.suspended[i].controller == d;
      }
    }
    forall n | n in page'.registrations
      ensures Latest(page', page'.registrations[n])
    {
      if n != names[0] {
        assert Latest(page, page.registrations[n]);
      }
    }
  }

  lemma ReserveKeepsTried(page: Page, id: nat, names: seq<Name>, answer: nat -> Option<bool>)
    requires TriedOrAhead(page, answer, id, names) && id < page.started && id !in page.suspended
    requires names != [] && names[0] !in page.registrations
    ensures TriedAll(Continue(page, id, names), answer)
  {
    var page' := Continue(page, id, names);
    forall n | n in page'.desired
      ensures Tried(page', LatestRejected(page', answer, n), n)
    {
      assert Tried(page, LatestRejected(page, answer, n), n) || n in names;
      if n !in page'.registrations && LatestRejected(page, answer, n) {
        var c: nat :| Latest(page, c) && page.names[c] == n && answer(c) == Some(false);
        assert Latest(page', c);
      }
    }
  }

  lemma {:induction false} ContinueKeepsAttempts(page: Page, id: nat, names: seq<Name>, answer: nat -> Option<bool>)
    requires Running(page, id, names) && AttemptsOk(page, answer) && TriedOrAhead(page, answer, id, names)
    ensures AttemptsOk(Continue(page, id, names), answer) && TriedAll(Continue(page, id, names), answer)
    decreases |names|
  {
    if names != [] {
      if names[0] in page.registrations {
        ContinueKeepsAttempts(page, id, names[1..], answer);
      } else {
        ReserveKeepsAttempts(page, id, names, answer);
        ReserveKeepsTried(page, id, names, answer);
      }
    }
  }

  lemma WithdrawKeepsAttempts(page: Page, mid: Page, names: seq<Name>, answer: nat -> Option<bool>)
    requires AttemptsOk(page, answer) && mid == Opened(page, names)
    ensures AttemptsOk(mid, answer) && TriedOrAhead(mid, answer, page.started, names)
  {
    assert forall c: nat :: Awaited(mid, c) <==> Awaited(page, c);
    forall n | n in mid.registrations
      ensures Latest(mid, mid.registrations[n])
    {
      assert Latest(page, page.registrations[n]);
    }
  }

  lemma StartKeepsAttempts(page: Page, names: seq<Name>, answer: nat -> Option<bool>)
    requires Inv(page) && AttemptsOk(page, answer)
    ensures AttemptsOk(Start(page, names), answer) && TriedAll(Start(page, names), answer)
  {
    StartRuns(page, names);
    WithdrawKeepsAttempts(page, Opened(page, names), names, answer);
    ContinueKeepsAttempts(Opened(page, names), page.started, names, answer);
  }

  /** After an answer the call's own attempt has it, and no longer an await. */
  lemma AnswerKeepsAttempts(page: Page, id: nat, accepted: bool, answer: nat -> Option<bool>, answer': nat -> Option<bool>)
    requires Inv(page) && AttemptsOk(page, answer) && id in page.suspended
    requires forall c: nat :: answer'(c) == if c == page.suspended[id].controller then Some(accepted) else answer(c)
    ensures AttemptsOk(Answer(page.(suspended := page.suspended - {id}), page.suspended[id], accepted), answer')
  {
    var call := page.suspended[id];
    var mid := Answer(page.(suspended := page.suspended - {id}), call, accepted);
    assert CallOk(page, id);
    forall c: nat | c < |mid.names|
      ensures answer'(c).None? <==> Awaited(mid, c)
    {
      if c != call.controller && Awaited(page, c) {
        var i :| i in page.suspended && page.suspended[i].controller == c;
        assert i in mid.suspended && mid.suspended[i].controller == c;
      }
    }
    forall n | n in mid.registrations
      ensures Latest(mid, mid.registrations[n])
    {
      assert Latest(page, page.registrations[n]);
    }
  }

  lemma LatestRejectedStays(page: Page, mid: Page, answer: nat -> Option<bool>, answer': nat -> Option<bool>, n: Name)
    requires mid.names == page.names && LatestRejected(page, answer, n)
    requires forall c: nat :: answer(c) == Some(false) ==> answer'(c) == Some(false)
    ensures LatestRejected(mid, answer', n)
  {
    var c: nat :| Latest(page, c) && page.names[c] == n && answer(c) == Some(false);
    assert Latest(mid, c);
  }

  lemma StoredIsLive(page: Page, n: Name)
    requires Inv(page) && n in page.registrations
    ensures page.registrations[n] !in page.aborted
  {
    assert Owned(page, page.registrations[n]);
  }

  /** A name that loses its registration to an answer while it is wanted loses it to a rejection. */
  lemma LosesToRejection(page: Page, mid: Page, id: nat, accepted: bool, answer': nat -> Option<bool>, n: Name)
    requires id in page.suspended && CallOk(page, id)
    requires mid == Answer(page.(suspended := page.suspended - {id}), page.suspended[id], accepted)
    requires n in page.registrations && n !in mid.registrations && n in mid.desired
    requires Latest(page, page.registrations[n]) && page.registrations[n] !in page.aborted
    requires answer'(page.suspended[id].controller) == Some(accepted)
    ensures LatestRejected(mid, answer', n)
  {
    var c := page.suspended[id].controller;
    assert page.registrations[n] == c && !accepted;
    assert Latest(mid, c) && mid.names[c] == n;
  }

  lemma AnswerKeepsTried(page: Page, mid: Page, id: nat, accepted: bool, rejected: bool, rejected': bool, n: Name)
    requires id in page.suspended && CallOk(page, id) && Tried(page, rejected, n)
    requires mid == Answer(page.(suspended := page.suspended - {id}), page.suspended[id], accepted)
    requires n in page.registrations && n !in mid.registrations ==> rejected'
    requires rejected ==> rejected'
    ensures Tried(mid, rejected', n) || (id == mid.started - 1 && n in page.suspended[id].rest)
  {
    if n !in page.registrations && !rejected && id != page.started - 1 {
      assert mid.suspended[page.started - 1] == page.suspended[page.started - 1];
    }
  }

  lemma AnswerKeepsTriedAll(page: Page, mid: Page, id: nat, accepted: bool, answer: nat -> Option<bool>, answer': nat -> Option<bool>)
    requires Inv(page) && AttemptsOk(page, answer) && TriedAll(page, answer) && id in page.suspended
    requires mid == Answer(page.(suspended := page.suspended - {id}), page.suspended[id], accepted)
    requires answer'(page.suspended[id].controller) == Some(accepted)
    requires forall c: nat :: answer(c) == Some(false) ==> answer'(c) == Some(false)
    ensures TriedOrAhead(mid, answer', id, page.suspended[id].rest)
  {
    forall n | n in mid.desired
      ensures Tried(mid, LatestRejected(mid, answer', n), n) || (id == mid.started - 1 && n in page.suspended[id].rest)
    {
      assert CallOk(page, id) && Tried(page, LatestRejected(page, answer, n), n);
      if n in page.registrations && n !in mid.registrations {
        StoredIsLive(page, n);
        LosesToRejection(page, mid, id, accepted, answer', n);
      }
      if LatestRejected(page, answer, n) {
        LatestRejectedStays(page, mid, answer, answer', n);
      }
      AnswerKeepsTried(page, mid, id, accepted, LatestRejected(page, answer, n), LatestRejected(mid, answer', n), n);
    }
  }

  lemma SettleKeepsAttempts(page: Page, id: nat, accepted: bool, answer: nat -> Option<bool>, answer': nat -> Option<bool>)
    requires Inv(page) && AttemptsOk(page, answer) && TriedAll(page, answer) && id in page.suspended
    requires forall c: nat :: answer'(c) == if c == page.suspended[id].controller then Some(accepted) else answer(c)
    ensures AttemptsOk(Settle(page, id, accepted), answer') && TriedAll(Settle(page, id, accepted), answer')
  {
    var call := page.suspended[id];
    var mid := Answer(page.(suspended := page.suspended - {id}), call, accepted);
    assert CallOk(page, id) && Owned(page, call.controller) && Awaited(page, call.controller);
    AnswerKeepsAttempts(page, id, accepted, answer, answer');
    AnswerKeepsTriedAll(page, mid, id, accepted, answer, answer');
    SettleRuns(page, id, accepted);
    ContinueKeepsAttempts(mid, id, call.rest, answer');
  }

  function AnswersTo(definitions: set<Name>, es: seq<Event>): nat -> Option<bool> {
    (c: nat) => AnswerTo(definitions, es, c)
  }

  lemma {:induction false} ReachAttempts(definitions: set<Name>, es: seq<Event>)
    ensures AttemptsOk(Reach(definitions, es), AnswersTo(definitions, es))
    ensures TriedAll(Reach(definitions, es), AnswersTo(definitions, es))
    decreases |es|
  {
    if es != [] {
      var init := es[..|es| - 1];
      var before := Reach(definitions, init);
      ReachInv(definitions, init);
      ReachAttempts(definitions, init);
      match es[|es| - 1]
      case StateArrived(tools) =>
        StartKeepsAttempts(before, Distinct(DesiredTools(tools, definitions)), AnswersTo(definitions, init));
        SameAttempts(Reach(definitions, es), AnswersTo(definitions, init), AnswersTo(definitions, es));
      case Answered(id, accepted) =>
        if id in before.suspended {
          SettleKeepsAttempts(before, id, accepted, AnswersTo(definitions, init), AnswersTo(definitions, es));
        } else {
          SameAttempts(before, AnswersTo(definitions, init), AnswersTo(definitions, es));
        }
    }
  }

  lemma SameAttempts(page: Page, answer: nat -> Option<bool>, answer': nat -> Option<bool>)
    requires AttemptsOk(page, answer) && TriedAll(page, answer) && forall c: nat :: answer'(c) == answer(c)
    ensures AttemptsOk(page, answer') && TriedAll(page, answer')
  {
    forall n | n in page.desired
      ensures Tried(page, LatestRejected(page, answer', n), n)
    {
      assert Tried(page, LatestRejected(page, answer, n), n);
      if LatestRejected(page, answer, n) {
        var c: nat :| Latest(page, c) && page.names[c] == n && answer(c) == Some(false);
        assert answer'(c) == Some(false);
      }
    }
  }

  lemma Decided(answer: Option<bool>)
    ensures answer == None || answer == Some(true) || answer == Some(false)
  {
    if answer.Some? {
      var b: bool := answer.value;
      assert b == true || b == false;
    }
  }

  /** Each attempt is answered once. */
  lemma {:induction false} AnswersAreFinal(definitions: set<Name>, es: seq<Event>, more: seq<Event>, c: nat)
    requires AnswerTo(definitions, es, c).Some?
    ensures AnswerTo(definitions, es + more, c) == AnswerTo(definitions, es, c)
    decreases |more|
  {
    if more == [] {
      assert es + more == es;
    } else {
      var init := es + more[..|more| - 1];
      AnswersAreFinal(definitions, es, more[..|more| - 1], c);
      assert (es + more)[..|es + more| - 1] == init;
      ReachAttempts(definitions, init);
      assert AnswersTo(definitions, init)(c) == AnswerTo(definitions, init, c);
      assert !Awaited(Reach(definitions, init), c);
    }
  }

  /** Fail closed, at every moment of every interleaving: a registration the browser rejected is aborted
      and not stored, and one that is not aborted was accepted or is still awaited. */
  lemma RejectedIsAborted(definitions: set<Name>, es: seq<Event>, c: nat)
    requires c < |Reach(definitions, es).names|
    ensures var page, answer := Reach(definitions, es), AnswerTo(definitions, es, c);
            && (answer == Some(false) ==> c in page.aborted && forall n :: n in page.registrations ==> page.registrations[n] != c)
            && (c !in page.aborted ==> answer == Some(true) || Awaited(page, c))
            && (answer.None? <==> Awaited(page, c))
  {
    var page := Reach(definitions, es);
    ReachInv(definitions, es);
    ReachAttempts(definitions, es);
    assert AnswerTo(definitions, es, c) == AnswersTo(definitions, es)(c);
    Decided(AnswerTo(definitions, es, c));
    if AnswerTo(definitions, es, c) == Some(false) {
      forall n | n in page.registrations
        ensures page.registrations[n] != c
      {
        assert Owned(page, page.registrations[n]);
      }
    }
  }

  /** When no call is suspended, the registered names are exactly the wanted ones whose latest attempt
      the browser accepted, each under that attempt's controller; every wanted name was attempted. */
  lemma QuiescentPageIsAccepted(definitions: set<Name>, es: seq<Event>, n: Name)
    requires Reach(definitions, es).suspended == map[]
    ensures var page := Reach(definitions, es);
            && (n in page.registrations ==> n in LastWanted(definitions, es))
            && (n in LastWanted(definitions, es) ==>
                  exists c: nat :: Latest(page, c) && page.names[c] == n && AnswerTo(definitions, es, c).Some?
                              && (n in page.registrations <==> AnswerTo(definitions, es, c).value)
                              && (n in page.registrations ==> page.registrations[n] == c))
  {
    var page, answer := Reach(definitions, es), AnswersTo(definitions, es);
    ReachInv(definitions, es);
    ReachAttempts(definitions, es);
    DesiredIsLastWanted(definitions, es);
    if n in page.registrations {
      assert Accounted(page, n);
      var c := page.registrations[n];
      assert Owned(page, c) && Latest(page, c) && !Awaited(page, c);
      assert answer(c) == AnswerTo(definitions, es, c);
      Decided(answer(c));
    } else if n in page.desired {
      assert Tried(page, LatestRejected(page, answer, n), n);
      var c: nat :| Latest(page, c) && page.names[c] == n && answer(c) == Some(false);
      assert AnswerTo(definitions, es, c) == Some(false);
    }
  }

  /** Since `mark` attempts ago n was tried again, or it is still ahead of the latest call. */
  ghost predicate Retried(page: Page, n: Name, mark: nat, ahead: bool) {
    || (exists c :: mark <= c < |page.names| && page.names[c] == n)
    || (n !in page.registrations && ahead)
  }

  ghost predicate AheadOfLatest(page: Page, n: Name) {
    page.started > 0 && page.started - 1 in page.suspended && n in page.suspended[page.started - 1].rest
  }

  lemma {:induction false} ContinueRetries(page: Page, id: nat, names: seq<Name>, n: Name, mark: nat)
    requires mark <= |page.names| && id !in page.suspended && id < page.started
    requires Retried(page, n, mark, AheadOfLatest(page, n) || (id == page.started - 1 && n in names))
    ensures mark <= |Continue(page, id, names).names| && Continue(page, id, names).started == page.started
    ensures Retried(Continue(page, id, names), n, mark, AheadOfLatest(Continue(page, id, names), n))
    decreases |names|
  {
    if names != [] {
      if names[0] in page.registrations {
        ContinueRetries(page, id, names[1..], n, mark);
      } else {
        var page' := Continue(page, id, names);
        if exists c :: mark <= c < |page.names| && page.names[c] == n {
          var c :| mark <= c < |page.names| && page.names[c] == n;
          assert page'.names[c] == n;
        } else if n == names[0] {
          assert page'.names[|page.names|] == n;
        } else if AheadOfLatest(page, n) && id != page.started - 1 {
          assert page'.suspended[page.started - 1] == page.suspended[page.started - 1];
        }
      }
    }
  }

  lemma SettleRetries(page: Page, id: nat, accepted: bool, n: Name, mark: nat)
    requires Inv(page) && mark <= |page.names| && id in page.suspended && Retried(page, n, mark, AheadOfLatest(page, n))
    ensures mark <= |Settle(page, id, accepted).names|
    ensures Retried(Settle(page, id, accepted), n, mark, AheadOfLatest(Settle(page, id, accepted), n))
  {
    var call := page.suspended[id];
    assert CallOk(page, id);
    var mid := Answer(page.(suspended := page.suspended - {id}), call, accepted);
    assert AheadOfLatest(page, n) && id != page.started - 1 ==> mid.suspended[page.started - 1] == page.suspended[page.started - 1];
    ContinueRetries(mid, id, call.rest, n, mark);
  }

  lemma {:induction false} AnswersRetry(page: Page, definitions: set<Name>, es: seq<Event>, n: Name, mark: nat)
    requires Inv(page) && mark <= |page.names| && Retried(page, n, mark, AheadOfLatest(page, n))
    requires forall k :: 0 <= k < |es| ==> es[k].Answered?
    ensures var page' := After(page, definitions, es);
            mark <= |page'.names| && Retried(page', n, mark, AheadOfLatest(page', n))
    decreases |es|
  {
    if es != [] {
      var id, accepted := es[0].id, es[0].accepted;
      if id in page.suspended {
        SettleKeepsInv(page, id, accepted);
        SettleRetries(page, id, accepted, n, mark);
      }
      AnswersRetry(Happen(page, definitions, es[0]), definitions, es[1..], n, mark);
    }
  }

  lemma StartRetries(page: Page, names: seq<Name>, n: Name)
    requires Inv(page) && n in names && n !in page.registrations
    ensures Inv(Start(page, names)) && |page.names| <= |Start(page, names).names|
    ensures Retried(Start(page, names), n, |page.names|, AheadOfLatest(Start(page, names), n))
  {
    var mid := Opened(page, names);
    StartRuns(page, names);
    StartKeepsInv(page, names);
    ContinueRetries(mid, page.started, names, n, |page.names|);
  }

  /** A wanted name that is not registered is tried again by the next server state that wants it: once
      its calls have been answered, there is a later attempt at it. */
  lemma NextStateTriesAgain(definitions: set<Name>, before: seq<Event>, tools: seq<Name>, es: seq<Event>, n: Name)
    requires n in tools && n in definitions && n !in Reach(definitions, before).registrations
    requires forall k :: 0 <= k < |es| ==> es[k].Answered?
    requires Reach(definitions, before + [StateArrived(tools)] + es).suspended == map[]
    ensures var page, page' := Reach(definitions, before), Reach(definitions, before + [StateArrived(tools)] + es);
            exists c :: |page.names| <= c < |page'.names| && page'.names[c] == n
  {
    var page, names := Reach(definitions, before), Distinct(DesiredTools(tools, definitions));
    ReachInv(definitions, before);
    DesiredToolsMembers(tools, definitions);
    DistinctMembers(DesiredTools(tools, definitions));
    StartRetries(page, names, n);
    assert (before + [StateArrived(tools)])[..|before|] == before;
    AnswersRetry(Start(page, names), definitions, es, n, |page.names|);
    ReachAppends(definitions, before + [StateArrived(tools)], es);
  }

  // ----- quiescence is reached -----

  /** An answer ends its call or shortens what that call has left, and touches no other call. */
  lemma AnswersMakeProgress(page: Page, id: nat, accepted: bool)
    requires id in page.suspended
    ensures var page' := Settle(page, id, accepted);
            && (id in page'.suspended ==> |page'.suspended[id].rest| < |page.suspended[id].rest|)
            && page'.suspended - {id} == page.suspended - {id}
  {
    var call := page.suspended[id];
    var mid := Answer(page.(suspended := page.suspended - {id}), call, accepted);
    ContinueKeepsDesired(mid, id, call.rest);
  }

  /** The awaits that calls below n can still come to. */
  function Awaits(suspended: map<nat, Call>, n: nat): nat {
    if n == 0 then 0
    else Awaits(suspended, n - 1) + (if n - 1 in suspended then |suspended[n - 1].rest| + 1 else 0)
  }

  lemma {:induction false} AwaitsAgree(a: map<nat, Call>, b: map<nat, Call>, id: nat, n: nat)
    requires a - {id} == b - {id} && id in a && (id in b ==> |b[id].rest| < |a[id].rest|)
    ensures Awaits(b, n) + (if id < n then 1 else 0) <= Awaits(a, n)
  {
    if n > 0 {
      AwaitsAgree(a, b, id, n - 1);
      if n - 1 != id {
        assert n - 1 in a <==> n - 1 in a - {id};
        assert n - 1 in b <==> n - 1 in b - {id};
        assert n - 1 in a ==> a[n - 1] == (a - {id})[n - 1] == (b - {id})[n - 1] == b[n - 1];
      }
    }
  }

  lemma {:induction false} NoAwaits(suspended: map<nat, Call>, n: nat)
    ensures Awaits(suspended, n) == 0 <==> forall id :: 0 <= id < n ==> id !in suspended
  {
    if n > 0 {
      NoAwaits(suspended, n - 1);
    }
  }

  /** The answers of a run that met a suspended call. */
  function Answers(page: Page, definitions: set<Name>, es: seq<Event>): nat
    decreases |es|
  {
    if es == [] then 0
    else (if es[0].Answered? && es[0].id in page.suspended then 1 else 0) + Answers(Happen(page, definitions, es[0]), definitions, es[1..])
  }

  function After(page: Page, definitions: set<Name>, es: seq<Event>): Page
    decreases |es|
  {
    if es == [] then page else After(Happen(page, definitions, es[0]), definitions, es[1..])
  }

  lemma {:induction false} ContinueKeepsStarted(page: Page, id: nat, names: seq<Name>)
    ensures Continue(page, id, names).started == page.started
    decreases |names|
  {
    if names != [] && names[0] in page.registrations {
      ContinueKeepsStarted(page, id, names[1..]);
    }
  }

  lemma SettleKeepsStarted(page: Page, id: nat, accepted: bool)
    requires id in page.suspended
    ensures Settle(page, id, accepted).started == page.started
  {
    var call := page.suspended[id];
    ContinueKeepsStarted(Answer(page.(suspended := page.suspended - {id}), call, accepted), id, call.rest);
  }

  /** While no further server state arrives, the browser answers a suspended call at most once for
      each await its calls can still come to; and no call is left suspended exactly when there is
      none of these. */
  lemma {:induction false} AnswersAreBounded(page: Page, definitions: set<Name>, es: seq<Event>)
    requires Inv(page) && forall k :: 0 <= k < |es| ==> es[k].Answered?
    ensures var page' := After(page, definitions, es);
            && Inv(page') && page'.started == page.started
            && Answers(page, definitions, es) + Awaits(page'.suspended, page.started) <= Awaits(page.suspended, page.started)
            && (page'.suspended == map[] <==> Awaits(page'.suspended, page.started) == 0)
    decreases |es|
  {
    if es == [] {
      NoAwaits(page.suspended, page.started);
      assert forall id :: id in page.suspended ==> CallOk(page, id);
    } else {
      var id, accepted := es[0].id, es[0].accepted;
      if id in page.suspended {
        SettleKeepsInv(page, id, accepted);
        SettleKeepsStarted(page, id, accepted);
        AnswersMakeProgress(page, id, accepted);
        assert CallOk(page, id);
        AwaitsAgree(page.suspended, Settle(page, id, accepted).suspended, id, page.started);
      }
      AnswersAreBounded(Happen(page, definitions, es[0]), definitions, es[1..]);
    }
  }

  /** Answers that always meet a suspended call, while there is one. */
  ghost predicate Serving(page: Page, definitions: set<Name>, es: seq<Event>)
    decreases |es|
  {
    es == [] || (es[0].Answered? && (page.suspended == map[] || es[0].id in page.suspended)
                 && Serving(Happen(page, definitions, es[0]), definitions, es[1..]))
  }

  lemma {:induction false} EnoughAnswers(page: Page, definitions: set<Name>, es: seq<Event>)
    requires Inv(page) && Serving(page, definitions, es) && |es| >= Awaits(page.suspended, page.started)
    ensures After(page, definitions, es).suspended == map[]
    decreases |es|
  {
    AnswersAreBounded(page, definitions, []);
    if es != [] {
      AnswersAreBounded(page, definitions, es[..1]);
      assert es[..1][1..] == [] && After(page, definitions, es[..1]) == Happen(page, definitions, es[0]);
      var page' := Happen(page, definitions, es[0]);
      if page.suspended != map[] {
        assert Answers(page, definitions, es[..1]) == 1 + Answers(page', definitions, []);
      }
      EnoughAnswers(page', definitions, es[1..]);
    }
  }

  lemma {:induction false} ReachAppends(definitions: set<Name>, before: seq<Event>, es: seq<Event>)
    ensures Reach(definitions, before + es) == After(Reach(definitions, before), definitions, es)
    decreases |es|
  {
    if es == [] {
      assert before + es == before;
    } else {
      assert (before + [es[0]])[..|before|] == before;
      assert before + es == (before + [es[0]]) + es[1..];
      ReachAppends(definitions, before + [es[0]], es[1..]);
    }
  }

  /** Quiescence is always reached: from every reachable page, however the browser answers and in
      whatever order, no call is suspended once it has given as many answers as awaits were left. */
  lemma QuiescenceIsReached(definitions: set<Name>, before: seq<Event>, es: seq<Event>)
    requires var page := Reach(definitions, before);
             Serving(page, definitions, es) && |es| >= Awaits(page.suspended, page.started)
    ensures Reach(definitions, before + es).suspended == map[]
  {
    ReachInv(definitions, before);
    EnoughAnswers(Reach(definitions, before), definitions, es);
    ReachAppends(definitions, before, es);
  }
}
