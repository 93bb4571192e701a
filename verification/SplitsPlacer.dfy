/**
  The SplitsPlacer controller as a step system over an API server whose calls may fail.  A call that
  fails may or may not have taken effect.
 */
module SplitsPlacer {
  import opened Graphs
  import opened Options

  datatype State = Unset | Finished | Error

  /** An RU of the stored request, with the nodes found for its chain if any. */
  datatype Ru = Ru(splitName: Name, ruNode: Name, cuNode: Name, duNode: Name)

  datatype SplitSpec = SplitSpec(coreIP: string, ruNode: Name, cuNode: Name, duNode: Name)

  datatype Placer = Placer(rus: seq<Ru>, coreIP: string, hasTopology: bool, state: State)

  /** Everything that is stored: the request, if it exists, and the Splits of its namespace. */
  datatype Store = Store(placer: Option<Placer>, splits: map<Name, SplitSpec>)

  /** What running the placement algorithm came to. */
  datatype Placing = Chains(rus: seq<Ru>) | Failure | Panic

  /**
    How far one reconcile pass got.  `written` flags say whether the last write it tried is stored;
    `synced` counts the RUs dealt with before a call failed.
   */
  datatype Pass =
    | Ignored
    | Crashed
    | TopologyFailed(written: bool)
    | SyncFailed(rus: seq<Ru>, synced: nat, written: bool)
    | SpecFailed(rus: seq<Ru>, written: bool)
    | Synced(rus: seq<Ru>, written: bool)

  function RusOf(placing: Placing): seq<Ru> {
    match placing
    case Chains(rus) => rus
    case _ => []
  }

  predicate HasChain(ru: Ru) {
    ru.cuNode != NO_NAME && ru.duNode != NO_NAME
  }

  function SpecOf(coreIP: string, ru: Ru): SplitSpec {
    SplitSpec(coreIP, ru.ruNode, ru.cuNode, ru.duNode)
  }

  /** The Split of one RU is created if the RU has a chain and the name is free. */
  function Ensure(splits: map<Name, SplitSpec>, coreIP: string, ru: Ru): map<Name, SplitSpec> {
    if HasChain(ru) && ru.splitName !in splits then splits[ru.splitName := SpecOf(coreIP, ru)] else splits
  }

  function EnsureAll(splits: map<Name, SplitSpec>, coreIP: string, rus: seq<Ru>): map<Name, SplitSpec> {
    if rus == [] then splits
    else Ensure(EnsureAll(splits, coreIP, rus[..|rus|-1]), coreIP, rus[|rus|-1])
  }

  /** The names created on the way, in order. */
  function Creates(splits: map<Name, SplitSpec>, coreIP: string, rus: seq<Ru>): seq<Name> {
    if rus == [] then []
    else
      var ru := rus[|rus|-1];
      Creates(splits, coreIP, rus[..|rus|-1]) +
      if HasChain(ru) && ru.splitName !in EnsureAll(splits, coreIP, rus[..|rus|-1]) then [ru.splitName] else []
  }

  function Marked(p: Placer, written: bool, state: State): Placer {
    if written then p.(state := state) else p
  }

  /** The store after a pass. */
  function Apply(s: Store, pass: Pass): Store {
    if s.placer.None? then s
    else
      var p := s.placer.value;
      match pass
      case Ignored => s
      case Crashed => s
      case TopologyFailed(written) => s.(placer := Some(Marked(p, written, Error)))
      case SyncFailed(rus, synced, written) =>
        Store(Some(Marked(p, written, Error)),
              EnsureAll(s.splits, p.coreIP, if synced <= |rus| then rus[..synced] else rus))
      case SpecFailed(rus, written) =>
        Store(Some(if written then p.(rus := rus) else p), EnsureAll(s.splits, p.coreIP, rus))
      case Synced(rus, written) =>
        Store(Some(Marked(p.(rus := rus), written, Finished)), EnsureAll(s.splits, p.coreIP, rus))
  }

  /** The names that a pass creates, in order. */
  function CreatedBy(s: Store, pass: Pass): seq<Name> {
    if s.placer.None? then []
    else
      var p := s.placer.value;
      match pass
      case SyncFailed(rus, synced, _) => Creates(s.splits, p.coreIP, if synced <= |rus| then rus[..synced] else rus)
      case SpecFailed(rus, _) => Creates(s.splits, p.coreIP, rus)
      case Synced(rus, _) => Creates(s.splits, p.coreIP, rus)
      case _ => []
  }

  /** The placement algorithm fills in whole chains or leaves RUs as they were. */
  predicate PlacedFrom(before: seq<Ru>, after: seq<Ru>) {
    |before| == |after| &&
    forall i :: 0 <= i < |after| ==> after[i] == before[i] || FilledIn(before[i], after[i])
  }

  predicate FilledIn(before: Ru, after: Ru) {
    HasChain(after) && after.splitName == before.splitName && after.ruNode == before.ruNode
  }

  /** Which passes may happen in a store. */
  ghost predicate Possible(s: Store, pass: Pass) {
    match pass
    case Ignored => true
    case Crashed => Open(s) && s.placer.value.hasTopology
    case TopologyFailed(_) => Open(s) && s.placer.value.hasTopology
    case SyncFailed(rus, synced, _) => Open(s) && synced <= |rus| && RusFrom(s.placer.value, rus)
    case SpecFailed(rus, _) => Open(s) && RusFrom(s.placer.value, rus)
    case Synced(rus, _) => Open(s) && RusFrom(s.placer.value, rus)
  }

  ghost predicate Open(s: Store) {
    s.placer.Some? && s.placer.value.state == Unset
  }

  ghost predicate RusFrom(p: Placer, rus: seq<Ru>) {
    if p.hasTopology then PlacedFrom(p.rus, rus) else rus == p.rus
  }

  // ---- the controller ----

  class ApiServer {
    /** No call to a healthy server fails, except to create what exists. */
    const healthy: bool
    var placer: Option<Placer>
    var splits: map<Name, SplitSpec>
    /** The names of the Splits created so far, in order. */
    ghost var created: seq<Name>

    constructor (placer: Option<Placer>, splits: map<Name, SplitSpec>, healthy: bool)
      ensures this.placer == placer && this.splits == splits && created == [] && this.healthy == healthy
    {
      this.placer, this.splits, created, this.healthy := placer, splits, [], healthy;
    }

    ghost function Stored(): Store
      reads this
    {
      Store(placer, splits)
    }

    /** Creates a Split; a taken name is refused. */
    method Create(name: Name, spec: SplitSpec) returns (failed: bool)
      modifies this`splits, this`created
      ensures if name in splits && name !in old(splits)
              then splits == old(splits)[name := spec] && created == old(created) + [name]
              else splits == old(splits) && created == old(created)
      ensures !failed ==> name in splits && name !in old(splits)
      ensures healthy && name !in old(splits) ==> !failed
    {
      if name in splits {
        return true;
      }
      var reached: bool :| healthy ==> reached;
      if reached {
        splits, created := splits[name := spec], created + [name];
        failed :| healthy ==> !failed;
      } else {
        failed := true;
      }
    }

    method UpdateSpec(rus: seq<Ru>) returns (failed: bool, ghost written: bool)
      requires placer.Some?
      modifies this`placer
      ensures placer == if written then Some(old(placer).value.(rus := rus)) else old(placer)
      ensures (!failed ==> written) && (healthy ==> !failed)
    {
      var reached: bool :| healthy ==> reached;
      written := reached;
      if reached {
        placer := Some(placer.value.(rus := rus));
        failed :| healthy ==> !failed;
      } else {
        failed := true;
      }
    }

    method UpdateStatus(state: State) returns (failed: bool, ghost written: bool)
      requires placer.Some?
      modifies this`placer
      ensures placer == Some(Marked(old(placer).value, written, state))
      ensures (!failed ==> written) && (healthy ==> !failed)
    {
      var reached: bool :| healthy ==> reached;
      written := reached;
      if reached {
        placer := Some(placer.value.(state := state));
        failed :| healthy ==> !failed;
      } else {
        failed := true;
      }
    }
  }

  /** Creates the missing Splits, RU by RU, until a call fails. */
  method SyncSplits(server: ApiServer, coreIP: string, rus: seq<Ru>) returns (failed: bool, ghost synced: nat)
    modifies server`splits, server`created
    ensures synced <= |rus| && (!failed ==> synced == |rus|)
    ensures server.splits == EnsureAll(old(server.splits), coreIP, rus[..synced])
    ensures server.created == old(server.created) + Creates(old(server.splits), coreIP, rus[..synced])
    ensures server.healthy ==> !failed
    ensures !failed ==> (Agrees(server.splits, coreIP, rus) <==> NoConflict(old(server.splits), coreIP, rus))
  {
    failed, synced := false, 0;
    for i := 0 to |rus|
      invariant synced == i && server.splits == EnsureAll(old(server.splits), coreIP, rus[..i])
      invariant server.created == old(server.created) + Creates(old(server.splits), coreIP, rus[..i])
    {
      assert rus[..i+1][..i] == rus[..i];
      var ru := rus[i];
      if HasChain(ru) {
        var getFails: bool :| server.healthy ==> !getFails;
        if getFails {
          return true, i;
        }
        if ru.splitName !in server.splits {
          var createFails := server.Create(ru.splitName, SpecOf(coreIP, ru));
          if createFails {
            return true, if ru.splitName in server.splits then i + 1 else i;
          }
        }
      }
      synced := i + 1;
    }
    assert rus[..|rus|] == rus;
    AgreesIffNoConflict(old(server.splits), coreIP, rus);
  }

  /** What the placement algorithm may come to on the stored request. */
  predicate ComesTo(placer: Option<Placer>, placing: Placing) {
    placer.Some? && placing.Chains? ==> PlacedFrom(placer.value.rus, placing.rus)
  }

  /** What a pass is like if no call fails: only the placement can keep it from completing. */
  ghost predicate Undisturbed(placer: Option<Placer>, placing: Placing, failed: bool, pass: Pass) {
    if placer.None? || placer.value.state != Unset then pass == Ignored && !failed
    else if !placer.value.hasTopology then pass == Synced(placer.value.rus, true) && !failed
    else
      match placing
      case Chains(rus) => pass == Synced(rus, true) && !failed
      case Failure => pass == TopologyFailed(true) && failed
      case Panic => pass == Crashed && failed
  }

  /** One reconcile pass; `placing` is what the placement algorithm would come to on the stored request. */
  method Reconcile(server: ApiServer, placing: Placing) returns (failed: bool, ghost pass: Pass)
    requires ComesTo(server.placer, placing)
    modifies server
    ensures Possible(old(server.Stored()), pass)
    ensures server.Stored() == Apply(old(server.Stored()), pass)
    ensures server.created == old(server.created) + CreatedBy(old(server.Stored()), pass)
    ensures !failed && Open(old(server.Stored())) ==> pass.Synced?
    ensures pass.Synced? && old(server.placer).value.hasTopology ==> placing.Chains?
    ensures pass.Synced? ==> pass.rus == if old(server.placer).value.hasTopology then RusOf(placing)
                                         else old(server.placer).value.rus
    ensures server.healthy ==> Undisturbed(old(server.placer), placing, failed, pass)
  {
    var getFails: bool :| server.healthy ==> !getFails;
    if getFails || server.placer.None? {
      return getFails, Ignored;
    }
    var splitsPlacer := server.placer.value;
    if splitsPlacer.state != Unset {
      return false, Ignored;
    }
    var rus := splitsPlacer.rus;
    if splitsPlacer.hasTopology {
      var readFails: bool :| server.healthy ==> !readFails;
      if !readFails && placing.Panic? {
        return true, Crashed;
      }
      if readFails || placing.Failure? {
        var _, written := server.UpdateStatus(Error);
        return true, TopologyFailed(written);
      }
      rus := placing.rus;
    }
    var syncFails, synced := SyncSplits(server, splitsPlacer.coreIP, rus);
    assert rus[..|rus|] == rus;
    if syncFails {
      var _, written := server.UpdateStatus(Error);
      return true, SyncFailed(rus, synced, written);
    }
    var updateFails, specWritten := server.UpdateSpec(rus);
    if updateFails {
      return true, SpecFailed(rus, specWritten);
    }
    var _, written := server.UpdateStatus(Finished);
    return false, Synced(rus, written);
  }

  // ---- safety, over any sequence of passes ----

  ghost function After(s: Store, passes: seq<Pass>): Store {
    if passes == [] then s else Apply(After(s, passes[..|passes|-1]), passes[|passes|-1])
  }

  ghost predicate History(s: Store, passes: seq<Pass>) {
    forall k :: 0 <= k < |passes| ==> Possible(After(s, passes[..k]), passes[k])
  }

  ghost function CreatedIn(s: Store, passes: seq<Pass>): seq<Name> {
    if passes == [] then []
    else
      var init := passes[..|passes|-1];
      CreatedIn(s, init) + CreatedBy(After(s, init), passes[|passes|-1])
  }

  /** The passes are a history from `s` that leaves the store `now` and has created the names `created`. */
  ghost predicate Served(s: Store, passes: seq<Pass>, now: Store, created: seq<Name>) {
    History(s, passes) && now == After(s, passes) && created == CreatedIn(s, passes)
  }

  lemma ServedNext(s: Store, passes: seq<Pass>, now: Store, created: seq<Name>, pass: Pass)
    requires Served(s, passes, now, created) && Possible(now, pass)
    ensures Served(s, passes + [pass], Apply(now, pass), created + CreatedBy(now, pass))
  {
    HistorySnoc(s, passes, pass);
  }

  /** Any number of passes, whatever the algorithm comes to and whichever calls fail, is such a history. */
  method ReconcileRepeatedly(server: ApiServer, times: nat) returns (ghost passes: seq<Pass>)
    requires server.created == []
    modifies server
    ensures |passes| == times && Served(old(server.Stored()), passes, server.Stored(), server.created)
  {
    passes := [];
    ghost var s := server.Stored();
    for i := 0 to times
      invariant |passes| == i && Served(s, passes, server.Stored(), server.created)
    {
      var placing: Placing := *;
      if !ComesTo(server.placer, placing) {
        placing := Failure;
      }
      ghost var now, created := server.Stored(), server.created;
      var failed, pass := Reconcile(server, placing);
      ServedNext(s, passes, now, created, pass);
      passes := passes + [pass];
    }
  }

  lemma HistorySnoc(s: Store, passes: seq<Pass>, pass: Pass)
    requires History(s, passes) && Possible(After(s, passes), pass)
    ensures History(s, passes + [pass]) && After(s, passes + [pass]) == Apply(After(s, passes), pass)
    ensures CreatedIn(s, passes + [pass]) == CreatedIn(s, passes) + CreatedBy(After(s, passes), pass)
  {
    var more := passes + [pass];
    assert more[..|passes|] == passes;
    forall k | 0 <= k < |more| ensures Possible(After(s, more[..k]), more[k]) {
      if k < |passes| {
        assert more[..k] == passes[..k];
      }
    }
  }

  ghost predicate Kept(before: map<Name, SplitSpec>, after: map<Name, SplitSpec>) {
    forall n :: n in before ==> n in after && after[n] == before[n]
  }

  /** Splits that were not there before have both nodes. */
  ghost predicate Grounded(before: map<Name, SplitSpec>, after: map<Name, SplitSpec>) {
    forall n :: n in after && n !in before ==> after[n].cuNode != NO_NAME && after[n].duNode != NO_NAME
  }

  lemma {:induction false} EnsureAllSafe(splits: map<Name, SplitSpec>, coreIP: string, rus: seq<Ru>)
    ensures Kept(splits, EnsureAll(splits, coreIP, rus)) && Grounded(splits, EnsureAll(splits, coreIP, rus))
    decreases |rus|
  {
    if rus == [] {
    } else {
      EnsureAllSafe(splits, coreIP, rus[..|rus|-1]);
    }
  }

  lemma ApplySafe(s: Store, pass: Pass)
    ensures Kept(s.splits, Apply(s, pass).splits) && Grounded(s.splits, Apply(s, pass).splits)
  {
    if s.placer.Some? {
      var ip := s.placer.value.coreIP;
      match pass {
        case SyncFailed(rus, synced, _) => EnsureAllSafe(s.splits, ip, if synced <= |rus| then rus[..synced] else rus);
        case SpecFailed(rus, _) => EnsureAllSafe(s.splits, ip, rus);
        case Synced(rus, _) => EnsureAllSafe(s.splits, ip, rus);
        case _ =>
      }
    }
  }

  /** Over any history no Split is lost or overwritten, and every new one has both nodes. */
  lemma {:induction false} SplitsSafe(s: Store, passes: seq<Pass>)
    ensures Kept(s.splits, After(s, passes).splits) && Grounded(s.splits, After(s, passes).splits)
    decreases |passes|
  {
    if passes == [] {
    } else {
      SplitsSafe(s, passes[..|passes|-1]);
      ApplySafe(After(s, passes[..|passes|-1]), passes[|passes|-1]);
    }
  }

  /** Once the state is set, nothing is ever written again. */
  lemma {:induction false} OneShot(s: Store, passes: seq<Pass>, k: nat)
    requires History(s, passes) && k <= |passes| && !Open(After(s, passes[..k]))
    ensures After(s, passes) == After(s, passes[..k])
    decreases |passes|
  {
    if k == |passes| {
      assert passes[..k] == passes;
    } else {
      var init := passes[..|passes|-1];
      assert init[..k] == passes[..k];
      assert forall i :: 0 <= i < |init| ==> init[..i] == passes[..i];
      OneShot(s, init, k);
      assert Possible(After(s, passes[..|passes|-1]), passes[|passes|-1]);
    }
  }

  /** The state moves once: to `Finished` by a complete pass, to `Error` by a failed one, if that is written. */
  lemma StateMoves(s: Store, pass: Pass)
    requires Possible(s, pass) && s.placer.Some?
    ensures Apply(s, pass).placer.Some?
    ensures var before, after := s.placer.value.state, Apply(s, pass).placer.value.state;
            && (before != Unset ==> after == before)
            && (before == Unset ==> (after == Finished <==> pass.Synced? && pass.written))
            && (before == Unset ==> (after == Error <==> (pass.TopologyFailed? || pass.SyncFailed?) && pass.written))
  {
  }

  /** Within a pass no name is created twice, and none that existed; what is new is what was created. */
  lemma {:induction false} CreatesAreNew(splits: map<Name, SplitSpec>, coreIP: string, rus: seq<Ru>)
    ensures var names := Creates(splits, coreIP, rus);
            && Distinct(names)
            && (forall n :: n in names ==> n !in splits)
            && (forall n :: n in EnsureAll(splits, coreIP, rus) <==> n in splits || n in names)
    decreases |rus|
  {
    if rus == [] {
    } else {
      CreatesAreNew(splits, coreIP, rus[..|rus|-1]);
    }
  }

  lemma CreatedByIsNew(s: Store, pass: Pass)
    ensures var names := CreatedBy(s, pass);
            && Distinct(names)
            && (forall n :: n in names ==> n !in s.splits)
            && (forall n :: n in Apply(s, pass).splits <==> n in s.splits || n in names)
  {
    if s.placer.Some? {
      var ip := s.placer.value.coreIP;
      match pass {
        case SyncFailed(rus, synced, _) =>
          CreatesAreNew(s.splits, ip, if synced <= |rus| then rus[..synced] else rus);
        case SpecFailed(rus, _) => CreatesAreNew(s.splits, ip, rus);
        case Synced(rus, _) => CreatesAreNew(s.splits, ip, rus);
        case _ =>
      }
    }
  }

  /** Over any sequence of passes no name is created twice, and none that existed; what is new was created. */
  lemma {:induction false} NeverCreatedTwice(s: Store, passes: seq<Pass>)
    ensures var names := CreatedIn(s, passes);
            && Distinct(names)
            && (forall n :: n in names ==> n !in s.splits)
            && (forall n :: n in After(s, passes).splits <==> n in s.splits || n in names)
    decreases |passes|
  {
    if passes == [] {
    } else {
      var init, pass := passes[..|passes|-1], passes[|passes|-1];
      NeverCreatedTwice(s, init);
      CreatedByIsNew(After(s, init), pass);
      DistinctConcat(CreatedIn(s, init), CreatedBy(After(s, init), pass));
    }
  }

  // ---- do the Splits agree with the placement? ----

  /** The Split has this core and the three nodes of this RU. */
  ghost predicate Serves(spec: SplitSpec, coreIP: string, ru: Ru) {
    && spec.coreIP == coreIP
    && spec.ruNode == ru.ruNode && spec.cuNode == ru.cuNode && spec.duNode == ru.duNode
  }

  /** Every RU with a CU and a DU node has a Split of its name with exactly its nodes. */
  ghost predicate Agrees(splits: map<Name, SplitSpec>, coreIP: string, rus: seq<Ru>) {
    forall i :: 0 <= i < |rus| && rus[i].cuNode != NO_NAME && rus[i].duNode != NO_NAME ==>
      rus[i].splitName in splits && Serves(splits[rus[i].splitName], coreIP, rus[i])
  }

  /** No RU with a chain finds its name taken for other nodes, by an older Split or by an earlier RU. */
  ghost predicate NoConflict(splits: map<Name, SplitSpec>, coreIP: string, rus: seq<Ru>) {
    && (forall i :: 0 <= i < |rus| && HasChain(rus[i]) && rus[i].splitName in splits ==>
          Serves(splits[rus[i].splitName], coreIP, rus[i]))
    && (forall i, k ::
          (0 <= i < k < |rus| && HasChain(rus[i]) && HasChain(rus[k]) && rus[i].splitName == rus[k].splitName)
          ==> SameNodes(rus[i], rus[k]))
  }

  ghost predicate SameNodes(a: Ru, b: Ru) {
    a.ruNode == b.ruNode && a.cuNode == b.cuNode && a.duNode == b.duNode
  }

  /** The Split was there before, or it has the nodes of an RU of its name. */
  ghost predicate Sourced(splits: map<Name, SplitSpec>, coreIP: string, rus: seq<Ru>, n: Name, spec: SplitSpec) {
    if n in splits then spec == splits[n] else FromRu(coreIP, rus, n, spec)
  }

  ghost predicate FromRu(coreIP: string, rus: seq<Ru>, n: Name, spec: SplitSpec) {
    exists i :: 0 <= i < |rus| && HasChain(rus[i]) && rus[i].splitName == n && Serves(spec, coreIP, rus[i])
  }

  lemma {:induction false} EnsureAllSource(splits: map<Name, SplitSpec>, coreIP: string, rus: seq<Ru>, n: Name)
    ensures var after := EnsureAll(splits, coreIP, rus);
            && (n in after ==> Sourced(splits, coreIP, rus, n, after[n]))
            && (forall i :: 0 <= i < |rus| && HasChain(rus[i]) ==> rus[i].splitName in after)
    decreases |rus|
  {
    if rus == [] {
    } else {
      var k := |rus| - 1;
      var init, last := rus[..k], rus[k];
      EnsureAllSource(splits, coreIP, init, n);
      EnsureAllSafe(splits, coreIP, init);
      assert forall i :: 0 <= i < k ==> init[i] == rus[i];
      var before := EnsureAll(splits, coreIP, init);
      if n in before && n !in splits {
        var i :| 0 <= i < |init| && HasChain(init[i]) && init[i].splitName == n &&
                Serves(before[n], coreIP, init[i]);
        assert rus[i] == init[i] && FromRu(coreIP, rus, n, before[n]);
      } else if n !in before && HasChain(last) && last.splitName == n {
        assert HasChain(rus[k]) && FromRu(coreIP, rus, n, SpecOf(coreIP, last));
      }
    }
  }

  /** A Split that a pass creates has the core, the name and the three nodes of one of the RUs. */
  lemma NewSplitsAreRus(s: Store, pass: Pass, n: Name)
    requires s.placer.Some? && n in Apply(s, pass).splits && n !in s.splits
    ensures pass.SyncFailed? || pass.SpecFailed? || pass.Synced?
    ensures FromRu(s.placer.value.coreIP, pass.rus, n, Apply(s, pass).splits[n])
  {
    var ip := s.placer.value.coreIP;
    match pass {
      case SyncFailed(rus, synced, _) =>
        var some := if synced <= |rus| then rus[..synced] else rus;
        EnsureAllSource(s.splits, ip, some, n);
        var spec := Apply(s, pass).splits[n];
        var i :| 0 <= i < |some| && HasChain(some[i]) && some[i].splitName == n && Serves(spec, ip, some[i]);
        assert some[i] == rus[i];
      case SpecFailed(rus, _) => EnsureAllSource(s.splits, ip, rus, n);
      case Synced(rus, _) => EnsureAllSource(s.splits, ip, rus, n);
      case _ =>
    }
  }

  /** The Splits agree with the placement exactly when there was no conflict before the Splits were synced. */
  lemma AgreesIffNoConflict(splits: map<Name, SplitSpec>, coreIP: string, rus: seq<Ru>)
    ensures Agrees(EnsureAll(splits, coreIP, rus), coreIP, rus) <==> NoConflict(splits, coreIP, rus)
  {
    var after := EnsureAll(splits, coreIP, rus);
    EnsureAllSafe(splits, coreIP, rus);
    forall i | 0 <= i < |rus| && HasChain(rus[i])
      ensures rus[i].splitName in after
      ensures NoConflict(splits, coreIP, rus) ==> Serves(after[rus[i].splitName], coreIP, rus[i])
    {
      var n := rus[i].splitName;
      EnsureAllSource(splits, coreIP, rus, n);
      if NoConflict(splits, coreIP, rus) && n !in splits {
        var k :| 0 <= k < |rus| && HasChain(rus[k]) && rus[k].splitName == n && Serves(after[n], coreIP, rus[k]);
      }
    }
  }

  lemma AfterSnoc(s: Store, passes: seq<Pass>, pass: Pass)
    ensures After(s, passes + [pass]) == Apply(After(s, passes), pass)
  {
    assert (passes + [pass])[..|passes|] == passes;
  }

  lemma EnsureOne(splits: map<Name, SplitSpec>, coreIP: string, ru: Ru)
    ensures EnsureAll(splits, coreIP, [ru]) == Ensure(splits, coreIP, ru)
  {
    assert [ru][..0] == [];
  }

  /** Distinct names and no older Splits: then a request that is finished has exactly its chains as Splits. */
  lemma FreshRequestAgrees(s: Store, rus: seq<Ru>, written: bool)
    requires Possible(s, Synced(rus, written))
    requires forall i, k :: 0 <= i < k < |rus| ==> rus[i].splitName != rus[k].splitName
    requires forall i :: 0 <= i < |rus| ==> rus[i].splitName !in s.splits
    ensures Agrees(Apply(s, Synced(rus, written)).splits, s.placer.value.coreIP, rus)
  {
    AgreesIffNoConflict(s.splits, s.placer.value.coreIP, rus);
  }

  /** No write failed or was lost; the placement may have failed or panicked. */
  ghost predicate Clean(passes: seq<Pass>) {
    forall k :: 0 <= k < |passes| ==> CleanPass(passes[k])
  }

  ghost predicate CleanPass(pass: Pass) {
    match pass
    case Ignored => true
    case Crashed => true
    case TopologyFailed(written) => written
    case SyncFailed(_, _, _) => false
    case SpecFailed(_, _) => false
    case Synced(_, written) => written
  }

  /** The placement failed: the state says so, and nothing else has changed. */
  ghost predicate Failed(s: Store, t: Store) {
    s.placer.Some? && t == s.(placer := Some(s.placer.value.(state := Error)))
  }

  /** The request is finished, and its Splits are exactly its chains. */
  ghost predicate Delivered(t: Store) {
    t.placer.Some? && t.placer.value.state == Finished && Agrees(t.splits, t.placer.value.coreIP, t.placer.value.rus)
  }

  lemma NamesPlaced(p: Placer, rus: seq<Ru>)
    requires RusFrom(p, rus)
    ensures |rus| == |p.rus| && forall i :: 0 <= i < |rus| ==> rus[i].splitName == p.rus[i].splitName
  {
  }

  /** If no write fails, a fresh request is untouched, or has failed, or is finished with its chains as Splits. */
  lemma {:induction false} CleanHistoryAgrees(s: Store, passes: seq<Pass>)
    requires History(s, passes) && Clean(passes) && Open(s)
    requires forall i, k :: 0 <= i < k < |s.placer.value.rus| ==>
               s.placer.value.rus[i].splitName != s.placer.value.rus[k].splitName
    requires forall i :: 0 <= i < |s.placer.value.rus| ==> s.placer.value.rus[i].splitName !in s.splits
    ensures var t := After(s, passes);
            t == s || Failed(s, t) || Delivered(t)
    decreases |passes|
  {
    if passes == [] {
    } else {
      var init, pass := passes[..|passes|-1], passes[|passes|-1];
      assert forall i :: 0 <= i < |init| ==> init[..i] == passes[..i] && init[i] == passes[i];
      CleanHistoryAgrees(s, init);
      assert Possible(After(s, passes[..|passes|-1]), pass) && CleanPass(pass);
      if pass.Synced? {
        NamesPlaced(s.placer.value, pass.rus);
        FreshRequestAgrees(s, pass.rus, pass.written);
      }
    }
  }

  /** A request for one RU, with the nodes of its chain. */
  function OneRu(name: Name, ru: Name, cu: Name, du: Name): seq<Ru> { [Ru(name, ru, cu, du)] }

  function Requested(name: Name, ru: Name, cu: Name, du: Name, ip: string, state: State): Option<Placer> {
    Some(Placer(OneRu(name, ru, cu, du), ip, true, state))
  }

  lemma LostStatus(name: Name, ru: Name, cu: Name, du: Name, ip: string)
    requires cu != NO_NAME && du != NO_NAME
    ensures var s := Store(Requested(name, ru, NO_NAME, NO_NAME, ip, Unset), map[]);
            var pass := SyncFailed(OneRu(name, ru, cu, du), 1, false);
            Possible(s, pass) && Apply(s, pass) == Store(s.placer, map[name := SplitSpec(ip, ru, cu, du)])
  {
    assert OneRu(name, ru, cu, du)[..1] == OneRu(name, ru, cu, du);
    EnsureOne(map[], ip, Ru(name, ru, cu, du));
  }

  lemma PlacedAgain(name: Name, ru: Name, spec: SplitSpec, cu: Name, du: Name, ip: string)
    requires cu != NO_NAME && du != NO_NAME
    ensures var s := Store(Requested(name, ru, NO_NAME, NO_NAME, ip, Unset), map[name := spec]);
            var pass := Synced(OneRu(name, ru, cu, du), true);
            Possible(s, pass) && Apply(s, pass) == Store(Requested(name, ru, cu, du, ip, Finished), s.splits)
  {
    EnsureOne(map[name := spec], ip, Ru(name, ru, cu, du));
  }

  /** The store of a fresh request for one RU. */
  function Fresh(name: Name, ru: Name, ip: string): Store {
    Store(Requested(name, ru, NO_NAME, NO_NAME, ip, Unset), map[])
  }

  /**
    Agreement is not kept when writes fail: a pass whose status write is lost leaves a Split behind, and
    the next one may place the RU elsewhere and still finish.
   */
  lemma LostStatusDisagrees(name: Name, ru: Name, cu: Name, du: Name, cu': Name, du': Name, ip: string)
    requires NO_NAME !in {cu, du, cu', du'} && (cu, du) != (cu', du')
    ensures var passes := [SyncFailed(OneRu(name, ru, cu, du), 1, false)] + [Synced(OneRu(name, ru, cu', du'), true)];
            && History(Fresh(name, ru, ip), passes)
            && After(Fresh(name, ru, ip), passes) ==
                 Store(Requested(name, ru, cu', du', ip, Finished), map[name := SplitSpec(ip, ru, cu, du)])
            && !Agrees(After(Fresh(name, ru, ip), passes).splits, ip, OneRu(name, ru, cu', du'))
  {
    var s := Fresh(name, ru, ip);
    var first, second := SyncFailed(OneRu(name, ru, cu, du), 1, false), Synced(OneRu(name, ru, cu', du'), true);
    LostStatus(name, ru, cu, du, ip);
    PlacedAgain(name, ru, SplitSpec(ip, ru, cu, du), cu', du', ip);
    AfterSnoc(s, [], first);
    assert [] + [first] == [first] && After(s, []) == s;
    AfterSnoc(s, [first], second);
    var passes := [first] + [second];
    assert passes[..0] == [] && passes[..1] == [first];
    assert OneRu(name, ru, cu', du')[0] == Ru(name, ru, cu', du');
  }

  /** If the last write of a pass is lost, the request is taken up again although its RU has a chain. */
  lemma LostFinished(name: Name, ru: Name, cu: Name, du: Name, ip: string)
    requires cu != NO_NAME && du != NO_NAME
    ensures var pass := Synced(OneRu(name, ru, cu, du), false);
            && Possible(Fresh(name, ru, ip), pass) && Open(Apply(Fresh(name, ru, ip), pass))
            && Apply(Fresh(name, ru, ip), pass).placer == Requested(name, ru, cu, du, ip, Unset)
  {
  }
}
