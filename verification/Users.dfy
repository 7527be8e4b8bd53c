/**
 * `findOrCreateUser` as any number of interleaved calls. Each await of a call is one step, other calls
 * may run between any two of them, and the database rejects a second row with the same authId or id.
 */
module Users {
  import opened Prelude

  datatype UserStatus = Active | Suspended | Disabled

  datatype User = User(id: string, status: UserStatus, lastLoginAt: int)

  /** The user table, indexed by its unique authId. */
  type Table = map<string, User>

  /** Where a call stands: the database operation it performs next, or its outcome. */
  datatype Stage =
    | Finding
    | Updating(id: string)
    | Creating
    | Refinding
    | Reupdating(id: string)
    | Returned(id: string, isNewUser: bool)
    | Threw

  datatype Call = Call(authId: string, stage: Stage)

  /** `creators` records which call inserted the row of an authId. */
  datatype System = System(users: Table, calls: map<nat, Call>, creators: map<string, nat>)

  datatype Step =
    | Arrive(call: nat, authId: string)
      /** One await of a call: the database answers or fails; an insert would use `freshId`. */
    | Advance(call: nat, ok: bool, freshId: string, now: int)
      /** An administrator changes the status of a user. */
    | SetStatus(authId: string, status: UserStatus)

  predicate IdTaken(users: Table, id: string) {
    exists a :: a in users && users[a].id == id
  }

  /** `update where id`: the login columns of the row with that id. */
  function Touch(users: Table, id: string, now: int): Table {
    map a | a in users :: if users[a].id == id then users[a].(lastLoginAt := now) else users[a]
  }

  function To(s: System, c: nat, stage: Stage): System
    requires c in s.calls
  {
    s.(calls := s.calls[c := s.calls[c].(stage := stage)])
  }

  function AdvanceCall(s: System, c: nat, ok: bool, freshId: string, now: int): System
    requires c in s.calls
  {
    var authId := s.calls[c].authId;
    match s.calls[c].stage
    case Finding =>
      if !ok then To(s, c, Threw)
      else if authId !in s.users then To(s, c, Creating)
      else if s.users[authId].status != Active then To(s, c, Threw)
      else To(s, c, Updating(s.users[authId].id))
    case Updating(id) =>
      if !ok || !IdTaken(s.users, id) then To(s, c, Threw)
      else To(s.(users := Touch(s.users, id, now)), c, Returned(id, false))
    case Creating =>
      if !ok then To(s, c, Threw)
      else if authId in s.users || IdTaken(s.users, freshId) then To(s, c, Refinding)
      else
        To(s.(users := s.users[authId := User(freshId, Active, now)], creators := s.creators[authId := c]),
           c, Returned(freshId, true))
    case Refinding =>
      if !ok || authId !in s.users then To(s, c, Threw)
      else To(s, c, Reupdating(s.users[authId].id))
    case Reupdating(id) =>
      if !ok || !IdTaken(s.users, id) then To(s, c, Threw)
      else To(s.(users := Touch(s.users, id, now)), c, Returned(id, false))
    case Returned(_, _) => s
    case Threw => s
  }

  function Apply(s: System, step: Step): System {
    match step
    case Arrive(c, authId) => if c in s.calls then s else s.(calls := s.calls[c := Call(authId, Finding)])
    case Advance(c, ok, freshId, now) => if c in s.calls then AdvanceCall(s, c, ok, freshId, now) else s
    case SetStatus(a, status) =>
      if a in s.users then s.(users := s.users[a := s.users[a].(status := status)]) else s
  }

  /** Any schedule at all, from a table and no calls. */
  function Run(users: Table, steps: seq<Step>): System {
    if steps == [] then System(users, map[], map[])
    else Apply(Run(users, steps[..|steps| - 1]), steps[|steps| - 1])
  }

  ghost predicate UniqueIds(users: Table) {
    forall a, b :: a in users && b in users && users[a].id == users[b].id ==> a == b
  }

  /** The id a call is working with or has returned. */
  function Bound(stage: Stage): Option<string> {
    match stage
    case Updating(id) => Some(id)
    case Reupdating(id) => Some(id)
    case Returned(id, _) => Some(id)
    case _ => None
  }

  /** A call bound to an id is bound to the row of its authId, and a call that reports a new user created it. */
  ghost predicate CallOk(s: System, c: nat)
    requires c in s.calls
  {
    var Call(a, stage) := s.calls[c];
    && (Bound(stage).Some? ==> a in s.users && s.users[a].id == Bound(stage).value)
    && (stage.Returned? && stage.isNewUser ==> a in s.creators && s.creators[a] == c)
  }

  ghost predicate CreatorOk(s: System, a: string)
    requires a in s.creators
  {
    var c := s.creators[a];
    c in s.calls && s.calls[c].authId == a && s.calls[c].stage.Returned? && s.calls[c].stage.isNewUser
  }

  ghost predicate Inv(users0: Table, s: System) {
    && UniqueIds(s.users)
    && (forall a :: a in users0 ==> a in s.users && s.users[a].id == users0[a].id)
    && s.creators.Keys == s.users.Keys - users0.Keys
    && (forall c :: c in s.calls ==> CallOk(s, c))
    && (forall a :: a in s.creators ==> CreatorOk(s, a))
  }

  /** Whatever changes no id and no call keeps the invariant. */
  lemma SameIds(users0: Table, s: System, users: Table)
    requires Inv(users0, s) && users.Keys == s.users.Keys
    requires forall a :: a in users ==> users[a].id == s.users[a].id
    ensures Inv(users0, s.(users := users))
  {
    var s' := s.(users := users);
    assert forall c :: c in s'.calls ==> CallOk(s, c) ==> CallOk(s', c);
    assert forall a :: a in s'.creators ==> CreatorOk(s, a) ==> CreatorOk(s', a);
  }

  /** Moving a call that has created nothing to a stage without a row, or bound to its own row. */
  lemma SameTable(users0: Table, s: System, c: nat, stage: Stage)
    requires Inv(users0, s) && c in s.calls && !s.calls[c].stage.Returned?
    requires stage.Returned? ==> !stage.isNewUser
    requires Bound(stage).Some? ==>
      s.calls[c].authId in s.users && s.users[s.calls[c].authId].id == Bound(stage).value
    ensures Inv(users0, To(s, c, stage))
  {
    var s' := To(s, c, stage);
    assert forall d :: d in s'.calls && d != c ==> CallOk(s, d) ==> CallOk(s', d);
    forall a | a in s'.creators
      ensures CreatorOk(s', a)
    {
      assert CreatorOk(s, a);
    }
  }

  lemma Insertion(users0: Table, s: System, c: nat, freshId: string, now: int)
    requires Inv(users0, s) && c in s.calls && s.calls[c].stage == Creating
    requires s.calls[c].authId !in s.users && !IdTaken(s.users, freshId)
    ensures Inv(users0, AdvanceCall(s, c, true, freshId, now))
  {
    var s' := AdvanceCall(s, c, true, freshId, now);
    var a := s.calls[c].authId;
    assert s'.users == s.users[a := User(freshId, Active, now)];
    forall d | d in s'.calls
      ensures CallOk(s', d)
    {
      assert CallOk(s, d);
    }
    forall b | b in s'.creators
      ensures CreatorOk(s', b)
    {
      if b != a {
        assert CreatorOk(s, b);
      }
    }
  }

  lemma Login(users0: Table, s: System, c: nat, id: string, now: int)
    requires Inv(users0, s) && c in s.calls && s.calls[c].stage in {Updating(id), Reupdating(id)}
    ensures Inv(users0, To(s.(users := Touch(s.users, id, now)), c, Returned(id, false)))
  {
    assert CallOk(s, c);
    SameIds(users0, s, Touch(s.users, id, now));
    SameTable(users0, s.(users := Touch(s.users, id, now)), c, Returned(id, false));
  }

  lemma InvAdvance(users0: Table, s: System, c: nat, ok: bool, freshId: string, now: int)
    requires Inv(users0, s) && c in s.calls
    ensures Inv(users0, AdvanceCall(s, c, ok, freshId, now))
  {
    var Call(authId, stage) := s.calls[c];
    if stage == Creating && ok && authId !in s.users && !IdTaken(s.users, freshId) {
      Insertion(users0, s, c, freshId, now);
    } else if (stage.Updating? || stage.Reupdating?) && ok && IdTaken(s.users, stage.id) {
      Login(users0, s, c, stage.id, now);
    } else if !stage.Returned? && stage != Threw {
      SameTable(users0, s, c, AdvanceCall(s, c, ok, freshId, now).calls[c].stage);
    }
  }

  lemma InvStep(users0: Table, s: System, step: Step)
    requires Inv(users0, s)
    ensures Inv(users0, Apply(s, step))
  {
    match step
    case Advance(c, ok, freshId, now) =>
      if c in s.calls {
        InvAdvance(users0, s, c, ok, freshId, now);
      }
    case SetStatus(a, status) =>
      if a in s.users {
        SameIds(users0, s, s.users[a := s.users[a].(status := status)]);
      }
    case Arrive(c, authId) =>
      ArriveKeeps(users0, s, c, authId);
  }

  lemma ArriveKeeps(users0: Table, s: System, c: nat, authId: string)
    requires Inv(users0, s)
    ensures Inv(users0, Apply(s, Arrive(c, authId)))
  {
    var s' := Apply(s, Arrive(c, authId));
    assert forall d :: d in s.calls ==> CallOk(s, d) ==> CallOk(s', d);
    assert forall a :: a in s.creators ==> CreatorOk(s, a) ==> CreatorOk(s', a);
  }

  lemma {:induction false} InvHolds(users0: Table, steps: seq<Step>)
    requires UniqueIds(users0)
    ensures Inv(users0, Run(users0, steps))
  {
    if steps != [] {
      InvHolds(users0, steps[..|steps| - 1]);
      InvStep(users0, Run(users0, steps[..|steps| - 1]), steps[|steps| - 1]);
    }
  }

  // ----- Theorems over every schedule -----

  /** Any two calls for the same authId that return do so with the same user, and at most one as new. */
  lemma CallsAgree(users0: Table, steps: seq<Step>, c: nat, d: nat)
    requires UniqueIds(users0)
    requires var s := Run(users0, steps);
      c in s.calls && d in s.calls && s.calls[c].stage.Returned? && s.calls[d].stage.Returned?
    ensures var s := Run(users0, steps);
      && (s.calls[c].authId == s.calls[d].authId <==> s.calls[c].stage.id == s.calls[d].stage.id)
      && (s.calls[c].authId == s.calls[d].authId && s.calls[c].stage.isNewUser && s.calls[d].stage.isNewUser ==> c == d)
  {
    InvHolds(users0, steps);
    var s := Run(users0, steps);
    assert CallOk(s, c) && CallOk(s, d);
  }

  /** A row is created for an authId at most once, only if it had none, and exactly its creator reports it as new. */
  lemma OneRowPerAuthId(users0: Table, steps: seq<Step>, a: string, c: nat)
    requires UniqueIds(users0)
    ensures var s := Run(users0, steps);
      && s.users.Keys == users0.Keys + s.creators.Keys && users0.Keys !! s.creators.Keys
      && (a in users0 ==> s.users[a].id == users0[a].id)
      && (c in s.calls && s.calls[c].authId == a && s.calls[c].stage.Returned? ==>
            (s.calls[c].stage.isNewUser <==> a in s.creators && s.creators[a] == c))
  {
    InvHolds(users0, steps);
    var s := Run(users0, steps);
    assert c in s.calls ==> CallOk(s, c);
    assert a in s.creators ==> CreatorOk(s, a);
  }

  // ----- When every call succeeds -----

  /** The database answers, no generated id is in use, and nobody is suspended. */
  ghost predicate Benign(users0: Table, steps: seq<Step>) {
    && (forall a :: a in users0 ==> users0[a].status == Active)
    && forall i :: 0 <= i < |steps| ==>
      match steps[i]
      case Arrive(_, _) => true
      case Advance(_, ok, freshId, _) => ok && !IdTaken(Run(users0, steps[..i]).users, freshId)
      case SetStatus(_, status) => status == Active
  }

  ghost predicate Smooth(s: System) {
    && (forall a :: a in s.users ==> s.users[a].status == Active)
    && (forall c :: c in s.calls ==> s.calls[c].stage != Threw)
    && (forall c :: c in s.calls && s.calls[c].stage == Refinding ==> s.calls[c].authId in s.users)
  }

  lemma SmoothUsers(s: System, c: nat, freshId: string, now: int)
    requires Smooth(s) && c in s.calls
    ensures var s' := AdvanceCall(s, c, true, freshId, now);
      s.users.Keys <= s'.users.Keys && forall a :: a in s'.users ==> s'.users[a].status == Active
  {
  }

  lemma SmoothStage(users0: Table, s: System, c: nat, freshId: string, now: int)
    requires Inv(users0, s) && Smooth(s) && c in s.calls && !IdTaken(s.users, freshId)
    ensures var Call(authId, stage) := AdvanceCall(s, c, true, freshId, now).calls[c];
      stage != Threw && (stage == Refinding ==> authId in s.users)
  {
    assert CallOk(s, c);
    var stage := s.calls[c].stage;
    assert stage.Updating? || stage.Reupdating? ==> IdTaken(s.users, stage.id);
  }

  lemma SmoothAdvance(users0: Table, s: System, c: nat, freshId: string, now: int)
    requires Inv(users0, s) && Smooth(s) && c in s.calls && !IdTaken(s.users, freshId)
    ensures Smooth(AdvanceCall(s, c, true, freshId, now))
  {
    SmoothUsers(s, c, freshId, now);
    SmoothStage(users0, s, c, freshId, now);
    OneCallMoves(s, c, true, freshId, now);
  }

  lemma OneCallMoves(s: System, c: nat, ok: bool, freshId: string, now: int)
    requires c in s.calls
    ensures var s' := AdvanceCall(s, c, ok, freshId, now);
      s'.calls.Keys == s.calls.Keys && forall d :: d in s.calls && d != c ==> s'.calls[d] == s.calls[d]
  {
  }

  /** Then no call throws: losing the race always ends in finding the winner's row. */
  lemma {:induction false} NoCallThrows(users0: Table, steps: seq<Step>)
    requires UniqueIds(users0) && Benign(users0, steps)
    ensures Smooth(Run(users0, steps))
  {
    if steps != [] {
      var n := |steps| - 1;
      var front := steps[..n];
      assert forall i :: 0 <= i < n ==> front[..i] == steps[..i];
      NoCallThrows(users0, front);
      InvHolds(users0, front);
      var s, step := Run(users0, front), steps[n];
      if step.Advance? && step.call in s.calls {
        SmoothAdvance(users0, s, step.call, step.freshId, step.now);
      }
    }
  }

  /** A call that has not returned yet needs at most four steps of its own. */
  function StepsLeft(stage: Stage): nat {
    match stage
    case Finding => 4
    case Creating => 3
    case Refinding => 2
    case Updating(_) => 1
    case Reupdating(_) => 1
    case _ => 0
  }

  lemma EveryStepAdvances(s: System, c: nat, ok: bool, freshId: string, now: int)
    requires c in s.calls
    ensures var stage := AdvanceCall(s, c, ok, freshId, now).calls[c].stage;
      StepsLeft(stage) < StepsLeft(s.calls[c].stage) || (stage == s.calls[c].stage && StepsLeft(stage) == 0)
  {
  }

  // ----- Which logins check the status -----

  /** The step binds a call to an existing row, with which it will log in. */
  predicate Binds(s: System, c: nat, ok: bool, freshId: string, now: int)
    requires c in s.calls
  {
    var stage := AdvanceCall(s, c, ok, freshId, now).calls[c].stage;
    Bound(s.calls[c].stage) == None && Bound(stage).Some? && !(stage.Returned? && stage.isNewUser)
  }

  /**
   * In any state, a step binds a call to a row that is not active exactly when the call has lost the race, the
   * database answers, and that row is there: the recovery path does not look at the status, the first lookup does.
   */
  lemma BindsToInactive(s: System, c: nat, ok: bool, freshId: string, now: int)
    requires c in s.calls
    ensures var a := s.calls[c].authId;
      && (Binds(s, c, ok, freshId, now) ==> a in s.users)
      && (Binds(s, c, ok, freshId, now) && s.users[a].status != Active <==>
          s.calls[c].stage == Refinding && ok && a in s.users && s.users[a].status != Active)
  {
  }

  /** The step is a successful lookup of call c that finds the user `id`. */
  predicate Found(s: System, step: Step, c: nat, stage: Stage, id: string) {
    && step.Advance? && step.call == c && step.ok
    && c in s.calls && s.calls[c].stage == stage
    && s.calls[c].authId in s.users && s.users[s.calls[c].authId].id == id
    && (stage == Finding ==> s.users[s.calls[c].authId].status == Active)
  }

  /** The step is an insert of call c that conflicts with a row. */
  predicate LosesRace(s: System, step: Step, c: nat) {
    && step.Advance? && step.call == c && step.ok
    && c in s.calls && s.calls[c].stage == Creating
    && (s.calls[c].authId in s.users || IdTaken(s.users, step.freshId))
  }

  predicate LooksAgain(s: System, c: nat) {
    c in s.calls && s.calls[c].stage == Refinding
  }

  /** The call is bound to a row that it did not create. */
  predicate LogsIn(s: System, c: nat, id: string) {
    c in s.calls && s.calls[c].stage in {Updating(id), Reupdating(id), Returned(id, false)}
  }

  lemma EntersAgain(s: System, step: Step, c: nat)
    requires LooksAgain(Apply(s, step), c)
    ensures LooksAgain(s, c) || LosesRace(s, step, c)
  {
  }

  lemma EntersLogin(s: System, step: Step, c: nat, id: string)
    requires LogsIn(Apply(s, step), c, id)
    ensures LogsIn(s, c, id) || Found(s, step, c, Finding, id) || Found(s, step, c, Refinding, id)
  {
  }

  lemma StepAt(users0: Table, steps: seq<Step>, k: nat)
    requires k < |steps|
    ensures Run(users0, steps[..k + 1]) == Apply(Run(users0, steps[..k]), steps[k])
  {
    assert steps[..k + 1][..k] == steps[..k];
  }

  /** A call that is looking again has lost the race before. */
  lemma {:induction false} Loser(users0: Table, steps: seq<Step>, n: nat, c: nat) returns (k: nat)
    requires n <= |steps| && LooksAgain(Run(users0, steps[..n]), c)
    ensures k < n && LosesRace(Run(users0, steps[..k]), steps[k], c)
  {
    k := n - 1;
    StepAt(users0, steps, k);
    EntersAgain(Run(users0, steps[..k]), steps[k], c);
    if LooksAgain(Run(users0, steps[..k]), c) {
      k := Loser(users0, steps, k, c);
    }
  }

  /** A call bound to an existing row has found it, in its first lookup or after losing the race. */
  lemma {:induction false} Finder(users0: Table, steps: seq<Step>, n: nat, c: nat, id: string)
    returns (k: nat, stage: Stage)
    requires n <= |steps| && LogsIn(Run(users0, steps[..n]), c, id)
    ensures k < n && stage in {Finding, Refinding} && Found(Run(users0, steps[..k]), steps[k], c, stage, id)
  {
    k := n - 1;
    StepAt(users0, steps, k);
    var s := Run(users0, steps[..k]);
    EntersLogin(s, steps[k], c, id);
    stage := if Found(s, steps[k], c, Finding, id) then Finding else Refinding;
    if LogsIn(s, c, id) {
      k, stage := Finder(users0, steps, k, c, id);
    }
  }

  /**
   * Under every schedule, a call that returns an existing user either found that user active in its first lookup, or
   * lost the race before it found the user. It says nothing of the status at the login itself.
   */
  lemma LoginsFoundActive(users0: Table, steps: seq<Step>, c: nat, id: string) returns (k: nat, lost: nat)
    requires c in Run(users0, steps).calls && Run(users0, steps).calls[c].stage == Returned(id, false)
    ensures k < |steps|
    ensures
      || Found(Run(users0, steps[..k]), steps[k], c, Finding, id)
      || (&& Found(Run(users0, steps[..k]), steps[k], c, Refinding, id)
          && lost < k && LosesRace(Run(users0, steps[..lost]), steps[lost], c))
  {
    assert steps[..|steps|] == steps;
    var stage;
    k, stage := Finder(users0, steps, |steps|, c, id);
    lost := 0;
    if stage == Refinding {
      lost := Loser(users0, steps, k, c);
    }
  }

  /** Two calls for one authId, of which the second wins. */
  const RACE := [
    Arrive(0, "a"), Arrive(1, "a"), Advance(0, true, "w", 0), Advance(1, true, "w", 0), Advance(1, true, "x", 1)
  ]

  /** The winner's row is suspended, and then the loser finishes. */
  const RECOVERY := [
    SetStatus("a", Suspended), Advance(0, true, "y", 2), Advance(0, true, "y", 3), Advance(0, true, "y", 4)
  ]

  lemma BeforeRace()
    ensures Run(map[], RACE[..4]) == System(map[], map[0 := Call("a", Creating), 1 := Call("a", Creating)], map[])
  {
    var s2 := System(map[], map[0 := Call("a", Finding), 1 := Call("a", Finding)], map[]);
    assert RACE[..0] == [];
    StepAt(map[], RACE, 0);
    StepAt(map[], RACE, 1);
    assert Run(map[], RACE[..2]) == s2;
    StepAt(map[], RACE, 2);
    StepAt(map[], RACE, 3);
  }

  lemma AfterRace()
    ensures Run(map[], RACE)
      == System(map["a" := User("x", Active, 1)],
                map[0 := Call("a", Creating), 1 := Call("a", Returned("x", true))], map["a" := 1])
  {
    BeforeRace();
    StepAt(map[], RACE, 4);
    assert RACE[..5] == RACE;
  }

  /** The loser is about to look again and will find a suspended user. */
  function Suspension(stage: Stage): System {
    System(map["a" := User("x", Suspended, 1)],
           map[0 := Call("a", stage), 1 := Call("a", Returned("x", true))], map["a" := 1])
  }

  lemma AfterSuspension()
    ensures Run(map[], (RACE + RECOVERY)[..7]) == Suspension(Refinding)
  {
    var steps := RACE + RECOVERY;
    AfterRace();
    assert steps[..5] == RACE;
    StepAt(map[], steps, 5);
    assert Run(map[], steps[..6]) == Suspension(Creating);
    StepAt(map[], steps, 6);
  }

  lemma RecoveryLogsIn(now: int)
    ensures AdvanceCall(Suspension(Refinding), 0, true, "y", now) == Suspension(Reupdating("x"))
    ensures var s := AdvanceCall(Suspension(Reupdating("x")), 0, true, "y", now);
      s.calls[0].stage == Returned("x", false) && s.users == map["a" := User("x", Suspended, now)]
  {
    var users := Suspension(Refinding).users;
    assert "a" in users && users["a"].id == "x";
    assert Touch(users, "x", now) == map["a" := User("x", Suspended, now)];
  }

  /** After a lost race a suspended user logs in: the loser returns a user whom its lookup found suspended. */
  lemma SuspendedUserLogsIn()
    ensures Run(map[], (RACE + RECOVERY)[..7]) == Suspension(Refinding)
    ensures var s := Run(map[], RACE + RECOVERY);
      && 0 in s.calls && s.calls[0].stage == Returned("x", false)
      && "a" in s.users && s.users["a"].status == Suspended
  {
    var steps := RACE + RECOVERY;
    AfterSuspension();
    StepAt(map[], steps, 7);
    RecoveryLogsIn(3);
    StepAt(map[], steps, 8);
    RecoveryLogsIn(4);
    assert steps[..9] == steps;
  }

  // ----- Logins of users who are not active -----

  /** The step logs a user in, and that user is not active at that moment. */
  predicate LogsInInactive(s: System, step: Step, c: nat) {
    && step.Advance? && step.call == c && c in s.calls && !s.calls[c].stage.Returned?
    && var s' := Apply(s, step);
    && s'.calls[c].stage.Returned?
    && var a := s.calls[c].authId;
    && a in s'.users && s'.users[a].status != Active
  }

  /**
   * In every reachable state, a step returns a call with a user who is not active exactly when the call is at its
   * update, the database answers, and the row it found is not active by then: the update goes by the id alone.
   */
  lemma InactiveLogin(users0: Table, s: System, step: Step, c: nat)
    requires Inv(users0, s) && c in s.calls
    ensures LogsInInactive(s, step, c) <==>
      var Call(a, stage) := s.calls[c];
      && step.Advance? && step.call == c && step.ok && (stage.Updating? || stage.Reupdating?)
      && a in s.users && s.users[a].status != Active
  {
    assert CallOk(s, c);
    var Call(a, stage) := s.calls[c];
    if stage.Updating? || stage.Reupdating? {
      assert a in s.users && s.users[a].id == stage.id && IdTaken(s.users, stage.id);
    }
  }

  predicate IsCallFor(s: System, c: nat, a: string) {
    c in s.calls && s.calls[c].authId == a
  }

  lemma AuthIdStep(s: System, step: Step, c: nat, a: string)
    requires IsCallFor(s, c, a)
    ensures IsCallFor(Apply(s, step), c, a)
  {
  }

  /** No call changes its authId. */
  lemma {:induction false} AuthIdFixed(users0: Table, steps: seq<Step>, k: nat, n: nat, c: nat, a: string)
    requires k <= n <= |steps| && IsCallFor(Run(users0, steps[..k]), c, a)
    ensures IsCallFor(Run(users0, steps[..n]), c, a)
  {
    if k < n {
      AuthIdFixed(users0, steps, k, n - 1, c, a);
      AuthIdStep(Run(users0, steps[..n - 1]), steps[n - 1], c, a);
      StepAt(users0, steps, n - 1);
    }
  }

  /** Only an administrator changes a status. */
  lemma StatusStep(s: System, step: Step, a: string)
    requires IsActive(s.users, a)
    ensures IsActive(Apply(s, step).users, a) || (step.SetStatus? && step.authId == a && step.status != Active)
  {
  }

  predicate IsActive(users: Table, a: string) {
    a in users && users[a].status == Active
  }

  /** A user who was active and is not any more was suspended or disabled in between. */
  lemma {:induction false} Suspender(users0: Table, steps: seq<Step>, k: nat, n: nat, a: string) returns (j: nat)
    requires k <= n <= |steps| && IsActive(Run(users0, steps[..k]).users, a)
    requires !IsActive(Run(users0, steps[..n]).users, a)
    ensures k <= j < n && steps[j].SetStatus? && steps[j].authId == a && steps[j].status != Active
  {
    j := n - 1;
    StepAt(users0, steps, j);
    if IsActive(Run(users0, steps[..j]).users, a) {
      StatusStep(Run(users0, steps[..j]), steps[j], a);
    } else {
      j := Suspender(users0, steps, k, j, a);
    }
  }

  /**
   * Under every schedule, a login of a user who is not active has one of two causes: the user was suspended or disabled
   * after the lookup that found the user active, or the call lost the race before it found the user.
   */
  lemma InactiveLoginCause(users0: Table, steps: seq<Step>, n: nat, c: nat) returns (k: nat, j: nat)
    requires UniqueIds(users0) && n < |steps| && LogsInInactive(Run(users0, steps[..n]), steps[n], c)
    ensures k < n && c in Run(users0, steps[..n]).calls
    ensures var Call(a, stage) := Run(users0, steps[..n]).calls[c];
      && Bound(stage).Some?
      && var id := Bound(stage).value;
      || (&& Found(Run(users0, steps[..k]), steps[k], c, Finding, id)
          && k < j < n && steps[j].SetStatus? && steps[j].authId == a && steps[j].status != Active)
      || (&& Found(Run(users0, steps[..k]), steps[k], c, Refinding, id)
          && j < k && LosesRace(Run(users0, steps[..j]), steps[j], c))
  {
    var s := Run(users0, steps[..n]);
    InvHolds(users0, steps[..n]);
    InactiveLogin(users0, s, steps[n], c);
    var Call(a, at) := s.calls[c];
    var stage;
    k, stage := Finder(users0, steps, n, c, at.id);
    AuthIdFixed(users0, steps, k, n, c, Run(users0, steps[..k]).calls[c].authId);
    if stage == Refinding {
      j := Loser(users0, steps, k, c);
    } else {
      j := Suspender(users0, steps, k, n, a);
      assert j != k;
    }
  }

  /** One call that has found user x, whose status is then `status`. */
  function OneCall(status: UserStatus, stage: Stage, at: int): System {
    System(map["a" := User("x", status, at)], map[0 := Call("a", stage)], map[])
  }

  lemma FindsThenSuspended()
    ensures var s := Apply(System(OneCall(Active, Finding, 0).users, map[], map[]), Arrive(0, "a"));
      && s == OneCall(Active, Finding, 0)
      && Apply(s, Advance(0, true, "w", 0)) == OneCall(Active, Updating("x"), 0)
    ensures Apply(OneCall(Active, Updating("x"), 0), SetStatus("a", Suspended)) == OneCall(Suspended, Updating("x"), 0)
  {
  }

  lemma UpdatesSuspended()
    ensures Apply(OneCall(Suspended, Updating("x"), 0), Advance(0, true, "w", 1))
      == OneCall(Suspended, Returned("x", false), 1)
  {
    var users := OneCall(Suspended, Updating("x"), 0).users;
    assert "a" in users && users["a"].id == "x";
    assert Touch(users, "x", 1) == map["a" := User("x", Suspended, 1)];
  }

  /** Without any race: the user is suspended between the lookup and the update of the only call. */
  lemma SuspendedBeforeUpdate(steps: seq<Step>)
    requires steps == [Arrive(0, "a"), Advance(0, true, "w", 0), SetStatus("a", Suspended), Advance(0, true, "w", 1)]
    ensures Run(map["a" := User("x", Active, 0)], steps)
      == System(map["a" := User("x", Suspended, 1)], map[0 := Call("a", Returned("x", false))], map[])
  {
    var users := map["a" := User("x", Active, 0)];
    FindsThenSuspended();
    UpdatesSuspended();
    assert steps[..0] == [] && steps[..4] == steps;
    StepAt(users, steps, 0);
    StepAt(users, steps, 1);
    StepAt(users, steps, 2);
    StepAt(users, steps, 3);
  }

  // ----- What a step writes, and when a call throws -----

  /**
   * In every reachable state: the step that returns a login stamps the time on the row of the call's authId and changes
   * nothing else; the step that returns a new user inserts an active row with the fresh id; no other step of a call
   * writes anything.
   */
  lemma StepWrites(users0: Table, s: System, c: nat, ok: bool, freshId: string, now: int)
    requires Inv(users0, s) && c in s.calls && !s.calls[c].stage.Returned?
    ensures var s' := AdvanceCall(s, c, ok, freshId, now);
      var Call(a, stage) := s'.calls[c];
      && (stage.Returned? && stage.isNewUser ==>
            a !in s.users && stage.id == freshId && s'.users == s.users[a := User(freshId, Active, now)])
      && (stage.Returned? && !stage.isNewUser ==>
            && a in s.users && s.users[a].id == stage.id
            && s'.users == s.users[a := s.users[a].(lastLoginAt := now)])
      && (!stage.Returned? ==> s'.users == s.users)
  {
    assert CallOk(s, c);
    var Call(a, stage) := s.calls[c];
    if stage.Updating? || stage.Reupdating? {
      TouchOne(s.users, a, now);
    }
  }

  lemma TouchOne(users: Table, a: string, now: int)
    requires UniqueIds(users) && a in users
    ensures Touch(users, users[a].id, now) == users[a := users[a].(lastLoginAt := now)]
  {
  }

  /**
   * A step makes a call throw exactly if its database call fails, its first lookup finds a user who is not active, its
   * second lookup finds nobody, or the row of its update is gone.
   */
  lemma ThrowsExactlyIf(s: System, c: nat, ok: bool, freshId: string, now: int)
    requires c in s.calls && !s.calls[c].stage.Returned? && s.calls[c].stage != Threw
    ensures var Call(a, stage) := s.calls[c];
      AdvanceCall(s, c, ok, freshId, now).calls[c].stage == Threw <==>
      || !ok
      || (stage == Finding && a in s.users && s.users[a].status != Active)
      || (stage == Refinding && a !in s.users)
      || ((stage.Updating? || stage.Reupdating?) && forall b :: b in s.users ==> s.users[b].id != stage.id)
  {
  }
}
