/**
  The Split controller as a step system: passes over config maps and deployments, cut short by any
  failing API call, in any order of pieces and for any number of Splits; and where they converge to.
  Pods are fixed; the operator's templates live in the same store.
 */
module SplitController {
  import opened Options

  datatype Piece = CU | DU | RU

  /** Namespace and name. */
  datatype Key = Key(space: string, name: string)

  datatype Ref = ConfigMapRef(key: Key) | DeploymentRef(key: Key)

  /** A config map whose data may be nil, or a deployment with the node it is pinned to, if any. */
  datatype Object =
    | ConfigMap(data: Option<map<string, string>>)
    | Deployment(piece: Piece, node: string, template: string, values: string)

  /** What the API server stores; a reference leads to an object of its own kind. */
  type Store = map<Ref, Object>

  datatype Split = Split(key: Key, coreIP: string, cuNode: string, duNode: string, ruNode: string)

  /** The addresses of the pods of each piece of each Split. */
  type Pods = map<(Key, Piece), seq<string>>

  const OPERATOR_NAMESPACE := "operator-system"

  function PieceName(p: Piece): string {
    match p
    case CU => "cu"
    case DU => "du"
    case RU => "ru"
  }

  function TemplateName(p: Piece): string {
    "operator-" + PieceName(p) + "-template"
  }

  function ResourceName(name: string, p: Piece): string {
    PieceName(p) + "-" + name
  }

  function OperatorKey(p: Piece): Key { Key(OPERATOR_NAMESPACE, TemplateName(p)) }

  function TemplateKey(space: string, p: Piece): Key { Key(space, TemplateName(p)) }

  function SplitKey(s: Split, p: Piece): Key { Key(s.key.space, ResourceName(s.key.name, p)) }

  /** Two pieces of two Splits share a name only if they are the same, and none is a template's name. */
  lemma KeysApart(s: Split, p: Piece, t: Split, q: Piece, space: string, r: Piece)
    ensures SplitKey(s, p) == SplitKey(t, q) ==> p == q && s.key == t.key
    ensures SplitKey(s, p) != TemplateKey(space, r)
    ensures TemplateName(p) == TemplateName(q) ==> p == q
  {
    var a, b := ResourceName(s.key.name, p), ResourceName(t.key.name, q);
    if a == b {
      assert a[0] == b[0] && a[3..] == s.key.name && b[3..] == t.key.name;
    }
    assert a[0] == PieceName(p)[0] && TemplateName(r)[0] == 'o';
    assert TemplateName(p)[9] == PieceName(p)[0] && TemplateName(q)[9] == PieceName(q)[0];
  }

  // ---- what a key should hold ----

  function DataOf(o: Object): Option<map<string, string>> {
    if o.ConfigMap? then o.data else None
  }

  function Lookup(o: Object, field: string): string {
    if DataOf(o).Some? && field in DataOf(o).value then DataOf(o).value[field] else ""
  }

  function WithField(o: Object, field: string, text: string): Object {
    ConfigMap(Some((if DataOf(o).Some? then DataOf(o).value else map[])[field := text]))
  }

  /** The address of the single pod, or of none; `None` when there is more than one. */
  function PodAddress(pods: Pods, s: Split, p: Piece): Option<string> {
    if (s.key, p) !in pods || pods[(s.key, p)] == [] then Some("")
    else if |pods[(s.key, p)]| == 1 then Some(pods[(s.key, p)][0])
    else None
  }

  /** A piece's configuration values; `None` when a pod it depends on is not unique. */
  function Content(pods: Pods, s: Split, p: Piece): Option<string> {
    var cu, du, ru := PodAddress(pods, s, CU), PodAddress(pods, s, DU), PodAddress(pods, s, RU);
    match p
    case CU =>
      if cu.None? || du.None? then None
      else Some("upfaddress: " + s.coreIP + "\nlocaladdress: " + cu.value + "\nsouthaddress: " + du.value + "\n")
    case DU =>
      if cu.None? || du.None? || ru.None? then None
      else Some("northaddress: " + cu.value + "\nlocaladdress: " + du.value + "\nsouthaddress: " + ru.value + "\n")
    case RU =>
      if du.None? || ru.None? then None
      else Some("northaddress: " + du.value + "\nlocaladdress: " + ru.value + "\n")
  }

  function NodeOf(s: Split, p: Piece): string {
    match p
    case CU => s.cuNode
    case DU => s.duNode
    case RU => s.ruNode
  }

  function DeploymentOf(s: Split, p: Piece): Object {
    Deployment(p, NodeOf(s, p), TemplateName(p), ResourceName(s.key.name, p))
  }

  // ---- single steps ----

  /** What a pass does, one resource at a time. */
  datatype Op =
    | Template(space: string, piece: Piece)
    | Values(split: Split, piece: Piece)
    | Deploy(split: Split, piece: Piece)

  /** The one object that a step may write. */
  function Target(op: Op): Ref {
    match op
    case Template(space, p) => ConfigMapRef(TemplateKey(space, p))
    case Values(split, p) => ConfigMapRef(SplitKey(split, p))
    case Deploy(split, p) => DeploymentRef(SplitKey(split, p))
  }

  function Source(p: Piece): Ref { ConfigMapRef(OperatorKey(p)) }

  /** The operator's template for a piece; none if its config map is missing. */
  function OperatorTemplate(s: Store, p: Piece): Option<string> {
    if Source(p) in s then Some(Lookup(s[Source(p)], "template")) else None
  }

  /** A config map with the wanted text in a field: created, left alone, or rewritten. */
  function Fill(s: Store, r: Ref, field: string, wanted: string, nilAllowed: bool): Option<Object> {
    if r !in s then Some(ConfigMap(Some(map[field := wanted])))
    else if Lookup(s[r], field) == wanted then Some(s[r])
    else if DataOf(s[r]).None? && !nilAllowed then None
    else Some(WithField(s[r], field, wanted))
  }

  /** What a step leaves at its target; `None` if it fails or panics. */
  function Next(pods: Pods, op: Op, s: Store): Option<Object> {
    match op
    case Template(_, p) =>
      var wanted := OperatorTemplate(s, p);
      if wanted.None? then None else Fill(s, Target(op), "template", wanted.value, false)
    case Values(split, p) =>
      var wanted := Content(pods, split, p);
      if wanted.None? then None else Fill(s, Target(op), "values", wanted.value, true)
    case Deploy(split, p) =>
      Some(if Target(op) in s then s[Target(op)] else DeploymentOf(split, p))
  }

  function Do(pods: Pods, op: Op, s: Store): Option<Store> {
    var o := Next(pods, op, s);
    if o.None? then None else Some(s[Target(op) := o.value])
  }

  /** The step has nothing to write. */
  predicate Settled(pods: Pods, op: Op, s: Store) {
    Do(pods, op, s) == Some(s)
  }

  /** Steps one after the other; `None` as soon as one fails. */
  function DoAll(pods: Pods, ops: seq<Op>, s: Store): Option<Store> {
    if ops == [] then Some(s)
    else
      var before := DoAll(pods, ops[..|ops|-1], s);
      if before.None? then None else Do(pods, ops[|ops|-1], before.value)
  }

  // ---- what a history of steps amounts to ----

  /** No two different steps share a target. */
  ghost predicate Coherent(ops: set<Op>) {
    forall a, b :: a in ops && b in ops && Target(a) == Target(b) ==> a == b
  }

  /** Steps never change the operator's templates. */
  lemma TemplatesKept(pods: Pods, op: Op, s: Store, p: Piece)
    requires Do(pods, op, s).Some?
    ensures OperatorTemplate(Do(pods, op, s).value, p) == OperatorTemplate(s, p)
  {
    match op {
      case Template(space, q) =>
        if Target(op) == Source(p) {
          var any := Split(Key("", ""), "", "", "", "");
          KeysApart(any, p, any, q, "", p);
        }
      case Values(split, q) => KeysApart(split, q, split, q, OPERATOR_NAMESPACE, p);
      case Deploy(_, _) =>
    }
  }

  /** The store is the initial one, except that each step taken has left its mark, once, at its target. */
  ghost predicate Amounts(pods: Pods, s0: Store, taken: set<Op>, s: Store) {
    && (forall p :: OperatorTemplate(s, p) == OperatorTemplate(s0, p))
    && (forall op :: op in taken ==> Target(op) in s && Next(pods, op, s0) == Some(s[Target(op)]))
    && (forall r :: !Touched(taken, r) ==> (r in s <==> r in s0) && (r in s ==> s[r] == s0[r]))
  }

  ghost predicate Touched(taken: set<Op>, r: Ref) {
    exists op :: op in taken && Target(op) == r
  }

  /** Repeating a step changes nothing. */
  lemma Repeat(pods: Pods, op: Op, s0: Store, s: Store)
    requires forall p :: OperatorTemplate(s, p) == OperatorTemplate(s0, p)
    requires Target(op) in s && Next(pods, op, s0) == Some(s[Target(op)])
    ensures Next(pods, op, s) == Next(pods, op, s0)
  {
  }

  lemma AmountsStep(pods: Pods, s0: Store, taken: set<Op>, s: Store, op: Op)
    requires Amounts(pods, s0, taken, s) && Coherent(taken + {op}) && Do(pods, op, s).Some?
    ensures Amounts(pods, s0, taken + {op}, Do(pods, op, s).value)
  {
    var s', r := Do(pods, op, s).value, Target(op);
    forall p ensures OperatorTemplate(s', p) == OperatorTemplate(s0, p) {
      TemplatesKept(pods, op, s, p);
    }
    if op in taken {
      Repeat(pods, op, s0, s);
      assert taken + {op} == taken && s' == s;
    } else {
      assert !Touched(taken, r);
      assert Next(pods, op, s) == Next(pods, op, s0);
      forall q | !Touched(taken + {op}, q) ensures !Touched(taken, q) && q != r {
        assert op in taken + {op};
      }
    }
  }

  ghost function Elements(ops: seq<Op>): set<Op> {
    set op | op in ops
  }

  lemma {:induction false} HistoryAmounts(pods: Pods, ops: seq<Op>, s0: Store)
    requires Coherent(Elements(ops)) && DoAll(pods, ops, s0).Some?
    ensures Amounts(pods, s0, Elements(ops), DoAll(pods, ops, s0).value)
    decreases |ops|
  {
    if ops == [] {
    } else {
      var init, op := ops[..|ops|-1], ops[|ops|-1];
      assert ops == init + [op];
      assert Elements(ops) == Elements(init) + {op};
      HistoryAmounts(pods, init, s0);
      AmountsStep(pods, s0, Elements(init), DoAll(pods, init, s0).value, op);
    }
  }

  lemma AmountsUnique(pods: Pods, s0: Store, taken: set<Op>, s: Store, t: Store)
    requires Amounts(pods, s0, taken, s) && Amounts(pods, s0, taken, t)
    ensures s == t
  {
    forall r ensures (r in s <==> r in t) && (r in s ==> s[r] == t[r]) {
      if op :| op in taken && Target(op) == r {
        assert Target(op) in s && Target(op) in t;
      }
    }
  }

  /** Steps that each succeed from the initial store succeed one after the other. */
  lemma {:induction false} AllSucceed(pods: Pods, ops: seq<Op>, s0: Store)
    requires Coherent(Elements(ops)) && forall op :: op in ops ==> Next(pods, op, s0).Some?
    ensures DoAll(pods, ops, s0).Some?
    decreases |ops|
  {
    if ops == [] {
    } else {
      var init, op := ops[..|ops|-1], ops[|ops|-1];
      assert ops == init + [op];
      assert Elements(ops) == Elements(init) + {op};
      AllSucceed(pods, init, s0);
      HistoryAmounts(pods, init, s0);
      var s := DoAll(pods, init, s0).value;
      if op in init {
        Repeat(pods, op, s0, s);
      } else {
        assert !Touched(Elements(init), Target(op));
      }
    }
  }

  /** Any two histories that took the same steps, each at least once, end in the same store. */
  lemma SameSteps(pods: Pods, history: seq<Op>, clean: seq<Op>, s0: Store)
    requires Coherent(Elements(history)) && Elements(history) == Elements(clean)
    requires DoAll(pods, history, s0).Some?
    ensures DoAll(pods, clean, s0) == DoAll(pods, history, s0)
  {
    HistoryAmounts(pods, history, s0);
    forall op | op in clean ensures Next(pods, op, s0).Some? {
      assert op in Elements(clean);
    }
    AllSucceed(pods, clean, s0);
    HistoryAmounts(pods, clean, s0);
    var s, t := DoAll(pods, history, s0).value, DoAll(pods, clean, s0).value;
    AmountsUnique(pods, s0, Elements(history), s, t);
    assert DoAll(pods, history, s0) == Some(s) && DoAll(pods, clean, s0) == Some(t);
  }

  /** A step that has been taken has nothing left to write. */
  lemma TakenIsSettled(pods: Pods, history: seq<Op>, s0: Store, op: Op)
    requires Coherent(Elements(history)) && DoAll(pods, history, s0).Some? && op in history
    ensures Settled(pods, op, DoAll(pods, history, s0).value)
  {
    var s := DoAll(pods, history, s0).value;
    HistoryAmounts(pods, history, s0);
    assert op in Elements(history);
    Repeat(pods, op, s0, s);
    assert s[Target(op) := s[Target(op)]] == s;
  }

  // ---- passes over Splits ----

  const PIECES: set<Piece> := {CU, DU, RU}

  function Templates(s: Split): set<Op> { set p | p in PIECES :: Template(s.key.space, p) }

  function ValuesOf(s: Split): set<Op> { set p | p in PIECES :: Values(s, p) }

  function Deployments(s: Split): set<Op> { set p | p in PIECES :: Deploy(s, p) }

  function OpsOf(s: Split): set<Op> { Templates(s) + ValuesOf(s) + Deployments(s) }

  /** A Split's name identifies it within its namespace. */
  ghost predicate Unique(splits: set<Split>) {
    forall s, t :: s in splits && t in splits && s.key == t.key ==> s == t
  }

  ghost predicate Belongs(op: Op, splits: set<Split>) {
    exists s :: s in splits && op in OpsOf(s)
  }

  lemma IsOpOf(op: Op, s: Split)
    ensures op in OpsOf(s) <==> if op.Template? then op.space == s.key.space else op.split == s
  {
    assert op.piece == CU || op.piece == DU || op.piece == RU;
  }

  lemma SameTargetSameOp(a: Op, b: Op, s: Split, t: Split)
    requires if a.Template? then a.space == s.key.space else a.split == s
    requires if b.Template? then b.space == t.key.space else b.split == t
    requires Target(a) == Target(b) && (s.key == t.key ==> s == t)
    ensures a == b
  {
    KeysApart(s, a.piece, t, b.piece, t.key.space, b.piece);
    KeysApart(t, b.piece, s, a.piece, s.key.space, a.piece);
  }

  lemma TargetsApart(splits: set<Split>, a: Op, b: Op)
    requires Unique(splits) && Belongs(a, splits) && Belongs(b, splits) && Target(a) == Target(b)
    ensures a == b
  {
    var s :| s in splits && a in OpsOf(s);
    var t :| t in splits && b in OpsOf(t);
    IsOpOf(a, s);
    IsOpOf(b, t);
    SameTargetSameOp(a, b, s, t);
  }

  lemma BelongingIsCoherent(splits: set<Split>, ops: set<Op>)
    requires Unique(splits) && forall op :: op in ops ==> Belongs(op, splits)
    ensures Coherent(ops)
  {
    forall a, b | a in ops && b in ops && Target(a) == Target(b) ensures a == b {
      TargetsApart(splits, a, b);
    }
  }

  /** A pass over a Split: some of its steps, or all of them. */
  datatype Pass = Pass(split: Split, steps: seq<Op>)

  ghost predicate PassOf(pass: Pass) {
    forall op :: op in pass.steps ==> op in OpsOf(pass.split)
  }

  ghost predicate Full(pass: Pass) {
    Elements(pass.steps) == OpsOf(pass.split)
  }

  function Steps(passes: seq<Pass>): seq<Op> {
    if passes == [] then [] else Steps(passes[..|passes|-1]) + passes[|passes|-1].steps
  }

  lemma {:induction false} StepsFrom(passes: seq<Pass>, op: Op)
    ensures op in Steps(passes) <==> exists i :: 0 <= i < |passes| && op in passes[i].steps
    decreases |passes|
  {
    if passes == [] {
    } else {
      StepsFrom(passes[..|passes|-1], op);
    }
  }

  /** Passes over the given Splits, cut short or not, with a full one for each Split among them. */
  ghost predicate Thorough(splits: set<Split>, passes: seq<Pass>) {
    && (forall i :: 0 <= i < |passes| ==> passes[i].split in splits && PassOf(passes[i]))
    && (forall s :: s in splits ==> HasFull(passes, s))
  }

  ghost predicate HasFull(passes: seq<Pass>, s: Split) {
    exists i :: 0 <= i < |passes| && passes[i].split == s && Full(passes[i])
  }

  lemma ThoroughTakesAll(splits: set<Split>, passes: seq<Pass>, op: Op)
    requires Thorough(splits, passes)
    ensures op in Steps(passes) <==> Belongs(op, splits)
  {
    StepsFrom(passes, op);
    if Belongs(op, splits) {
      var s :| s in splits && op in OpsOf(s);
      assert HasFull(passes, s);
      var i :| 0 <= i < |passes| && passes[i].split == s && Full(passes[i]);
      assert op in Elements(passes[i].steps);
    }
  }

  /**
    Convergence.  After any interleaving of passes over any Splits, each cut short anywhere, once every
    Split has had a full pass the store is the one that any other such history reaches, clean passes in
    any order among them; and a further pass over any of the Splits writes nothing.
   */
  lemma PassesConverge(pods: Pods, splits: set<Split>, passes: seq<Pass>, clean: seq<Pass>, s0: Store)
    requires Unique(splits) && Thorough(splits, passes) && Thorough(splits, clean)
    requires DoAll(pods, Steps(passes), s0).Some?
    ensures DoAll(pods, Steps(clean), s0) == DoAll(pods, Steps(passes), s0)
    ensures forall op :: Belongs(op, splits) ==> Settled(pods, op, DoAll(pods, Steps(passes), s0).value)
  {
    forall op ensures op in Steps(passes) <==> Belongs(op, splits)
              ensures op in Steps(clean) <==> Belongs(op, splits)
    {
      ThoroughTakesAll(splits, passes, op);
      ThoroughTakesAll(splits, clean, op);
    }
    BelongingIsCoherent(splits, Elements(Steps(passes)));
    assert Elements(Steps(passes)) == Elements(Steps(clean));
    SameSteps(pods, Steps(passes), Steps(clean), s0);
    forall op | Belongs(op, splits) ensures Settled(pods, op, DoAll(pods, Steps(passes), s0).value) {
      TakenIsSettled(pods, Steps(passes), s0, op);
    }
  }

  /** Steps of one Split's pass succeed one after the other exactly if each would on the store before the pass. */
  lemma StepsSucceedIff(pods: Pods, s: Split, steps: seq<Op>, store: Store)
    requires Elements(steps) == OpsOf(s)
    ensures DoAll(pods, steps, store).Some? <==> forall op :: op in OpsOf(s) ==> Next(pods, op, store).Some?
  {
    forall op | op in Elements(steps) ensures Belongs(op, {s}) {
      assert s in {s};
    }
    BelongingIsCoherent({s}, Elements(steps));
    if DoAll(pods, steps, store).Some? {
      HistoryAmounts(pods, steps, store);
    }
    if forall op :: op in OpsOf(s) ==> Next(pods, op, store).Some? {
      forall op | op in steps ensures Next(pods, op, store).Some? {
        assert op in Elements(steps);
      }
      AllSucceed(pods, steps, store);
    }
  }

  // ---- a full pass, in terms of names, fields and texts ----

  /** A config map with this text in this field. */
  ghost predicate Has(s: Store, r: Ref, field: string, text: string) {
    r in s && s[r].ConfigMap? && s[r].data.Some? && field in s[r].data.value && s[r].data.value[field] == text
  }

  /** The field reads as this text; a missing one reads as the empty text. */
  ghost predicate Reads(s: Store, r: Ref, field: string, text: string) {
    r in s && (Has(s, r, field, text) || (text == "" && forall other :: !Has(s, r, field, other)))
  }

  lemma LookupReads(s: Store, r: Ref, field: string, text: string)
    requires r in s
    ensures Reads(s, r, field, text) <==> text == Lookup(s[r], field)
  {
    assert Lookup(s[r], field) == "" || Has(s, r, field, Lookup(s[r], field));
  }

  /** All fields but one are as they were. */
  ghost predicate OthersKept(s0: Store, s: Store, r: Ref, field: string) {
    forall f, text :: f != field ==> (Has(s0, r, f, text) <==> Has(s, r, f, text))
  }

  function OriginalRef(template: string): Ref { ConfigMapRef(Key("operator-system", template)) }

  /** The copy of an operator's template can be brought up to date. */
  ghost predicate Copyable(s: Store, space: string, template: string) {
    var copy := ConfigMapRef(Key(space, template));
    && OriginalRef(template) in s
    && (copy in s ==> (s[copy].ConfigMap? && s[copy].data.Some?) || SameTemplate(s, OriginalRef(template), copy))
  }

  ghost predicate SameTemplate(s: Store, original: Ref, copy: Ref) {
    exists text :: Reads(s, original, "template", text) && Reads(s, copy, "template", text)
  }

  ghost predicate OnePodAtMost(pods: Pods, s: Split, p: Piece) {
    (s.key, p) in pods ==> |pods[(s.key, p)]| <= 1
  }

  /** What a pass needs: templates that can be copied, and no piece with two pods. */
  ghost predicate Ready(pods: Pods, split: Split, s: Store) {
    && Copyable(s, split.key.space, "operator-cu-template")
    && Copyable(s, split.key.space, "operator-du-template")
    && Copyable(s, split.key.space, "operator-ru-template")
    && OnePodAtMost(pods, split, CU) && OnePodAtMost(pods, split, DU) && OnePodAtMost(pods, split, RU)
  }

  lemma NamesAre(name: string)
    ensures TemplateName(CU) == "operator-cu-template" && ResourceName(name, CU) == "cu-" + name
    ensures TemplateName(DU) == "operator-du-template" && ResourceName(name, DU) == "du-" + name
    ensures TemplateName(RU) == "operator-ru-template" && ResourceName(name, RU) == "ru-" + name
  {
  }

  lemma CopyableIff(pods: Pods, space: string, p: Piece, s: Store)
    ensures Next(pods, Template(space, p), s).Some? <==> Copyable(s, space, TemplateName(p))
  {
    var original, copy := Source(p), ConfigMapRef(TemplateKey(space, p));
    if original in s && copy in s {
      LookupReads(s, original, "template", Lookup(s[original], "template"));
      LookupReads(s, copy, "template", Lookup(s[original], "template"));
      if text :| Reads(s, original, "template", text) && Reads(s, copy, "template", text) {
        LookupReads(s, original, "template", text);
      }
    }
  }

  lemma ContentIff(pods: Pods, s: Split, p: Piece)
    ensures PodAddress(pods, s, p).Some? <==> OnePodAtMost(pods, s, p)
  {
  }

  lemma ValuesPass(pods: Pods, s: Split, store: Store)
    ensures (forall op :: op in ValuesOf(s) ==> Next(pods, op, store).Some?) <==>
              OnePodAtMost(pods, s, CU) && OnePodAtMost(pods, s, DU) && OnePodAtMost(pods, s, RU)
  {
    ContentIff(pods, s, CU);
    ContentIff(pods, s, DU);
    ContentIff(pods, s, RU);
    if forall op :: op in ValuesOf(s) ==> Next(pods, op, store).Some? {
      assert Values(s, CU) in ValuesOf(s) && Values(s, DU) in ValuesOf(s);
    }
  }

  lemma TemplatesPass(pods: Pods, s: Split, store: Store)
    ensures (forall op :: op in Templates(s) ==> Next(pods, op, store).Some?) <==>
              forall p :: p in PIECES ==> Copyable(store, s.key.space, TemplateName(p))
  {
    forall p | p in PIECES
      ensures Template(s.key.space, p) in Templates(s)
      ensures Next(pods, Template(s.key.space, p), store).Some? <==> Copyable(store, s.key.space, TemplateName(p))
    {
      CopyableIff(pods, s.key.space, p, store);
    }
  }

  /** Each step of a Split's pass would succeed exactly if the Split is ready. */
  lemma ReadyIff(pods: Pods, s: Split, store: Store)
    ensures Ready(pods, s, store) <==> forall op :: op in OpsOf(s) ==> Next(pods, op, store).Some?
  {
    TemplatesPass(pods, s, store);
    ValuesPass(pods, s, store);
    NamesAre(s.key.name);
    forall op | op in Deployments(s) ensures Next(pods, op, store).Some? {
    }
  }

  /** A full pass, as a sequence of steps, meets no failure and no panic of its own exactly if it is ready. */
  lemma PassGoesThroughIff(pods: Pods, s: Split, steps: seq<Op>, store: Store)
    requires Elements(steps) == OpsOf(s)
    ensures DoAll(pods, steps, store).Some? <==> Ready(pods, s, store)
  {
    StepsSucceedIff(pods, s, steps, store);
    ReadyIff(pods, s, store);
  }

  // ---- what a full pass leaves ----

  /** The piece's one pod has this address; without a pod the address is empty. */
  ghost predicate AtAddress(pods: Pods, s: Split, p: Piece, address: string) {
    if (s.key, p) in pods && pods[(s.key, p)] != [] then pods[(s.key, p)] == [address] else address == ""
  }

  /** The copy reads as the operator's template, which is as it was; so are the copy's other fields. */
  ghost predicate Copied(s0: Store, s: Store, space: string, template: string) {
    && SameText(s0, s, OriginalRef(template), ConfigMapRef(Key(space, template)))
    && OthersKept(s0, s, ConfigMapRef(Key(space, template)), "template")
  }

  ghost predicate SameText(s0: Store, s: Store, original: Ref, copy: Ref) {
    exists text ::
      Reads(s0, original, "template", text) && Reads(s, original, "template", text) && Reads(s, copy, "template", text)
  }

  ghost predicate Configured(s0: Store, s: Store, key: Key, text: string) {
    Has(s, ConfigMapRef(key), "values", text) && OthersKept(s0, s, ConfigMapRef(key), "values")
  }

  /** There is a deployment: the one that was there, or this one. */
  ghost predicate Deployed(s0: Store, s: Store, key: Key, o: Object) {
    var r := DeploymentRef(key);
    r in s && s[r] == if r in s0 then s0[r] else o
  }

  /** What the store must hold for one piece. */
  ghost predicate PieceServed(s0: Store, s: Store, space: string, p: Piece, node: string, template: string,
                              name: string, values: string)
  {
    && Copied(s0, s, space, template) && Configured(s0, s, Key(space, name), values)
    && Deployed(s0, s, Key(space, name), Deployment(p, node, template, name))
  }

  /** What the store must hold for a Split whose pods have these addresses. */
  ghost predicate ServedAt(s0: Store, s: Store, split: Split, cu: string, du: string, ru: string) {
    var space, name := split.key.space, split.key.name;
    && PieceServed(s0, s, space, CU, split.cuNode, "operator-cu-template", "cu-" + name,
                   "upfaddress: " + split.coreIP + "\nlocaladdress: " + cu + "\nsouthaddress: " + du + "\n")
    && PieceServed(s0, s, space, DU, split.duNode, "operator-du-template", "du-" + name,
                   "northaddress: " + cu + "\nlocaladdress: " + du + "\nsouthaddress: " + ru + "\n")
    && PieceServed(s0, s, space, RU, split.ruNode, "operator-ru-template", "ru-" + name,
                   "northaddress: " + du + "\nlocaladdress: " + ru + "\n")
  }

  ghost predicate Served(pods: Pods, split: Split, s0: Store, s: Store) {
    exists cu, du, ru ::
      && AtAddress(pods, split, CU, cu) && AtAddress(pods, split, DU, du) && AtAddress(pods, split, RU, ru)
      && ServedAt(s0, s, split, cu, du, ru)
  }

  /** Filling a field leaves it with the wanted text, and the others as they were. */
  lemma FillLeaves(s0: Store, s: Store, r: Ref, field: string, wanted: string, nilAllowed: bool)
    requires r in s && Fill(s0, r, field, wanted, nilAllowed) == Some(s[r])
    ensures Reads(s, r, field, wanted) && OthersKept(s0, s, r, field)
  {
    LookupReads(s, r, field, wanted);
  }

  lemma CopyLeft(pods: Pods, s0: Store, s: Store, space: string, p: Piece)
    requires var op := Template(space, p);
             Target(op) in s && Next(pods, op, s0) == Some(s[Target(op)])
    requires OperatorTemplate(s, p) == OperatorTemplate(s0, p)
    ensures Copied(s0, s, space, TemplateName(p))
  {
    var text := OperatorTemplate(s0, p).value;
    LookupReads(s0, Source(p), "template", text);
    LookupReads(s, Source(p), "template", text);
    FillLeaves(s0, s, ConfigMapRef(TemplateKey(space, p)), "template", text, false);
  }

  lemma ValuesLeft(pods: Pods, s0: Store, s: Store, split: Split, p: Piece)
    requires var op := Values(split, p);
             Target(op) in s && Next(pods, op, s0) == Some(s[Target(op)])
    ensures Content(pods, split, p).Some? && Configured(s0, s, SplitKey(split, p), Content(pods, split, p).value)
  {
    var text := Content(pods, split, p).value;
    FillLeaves(s0, s, ConfigMapRef(SplitKey(split, p)), "values", text, true);
    assert text[0] in "un";
  }

  lemma PieceLeft(pods: Pods, taken: set<Op>, s0: Store, s: Store, split: Split, p: Piece)
    requires Amounts(pods, s0, taken, s) && OpsOf(split) <= taken
    ensures Content(pods, split, p).Some?
    ensures PieceServed(s0, s, split.key.space, p, NodeOf(split, p), TemplateName(p), ResourceName(split.key.name, p),
                        Content(pods, split, p).value)
  {
    var copy, values, deploy := Template(split.key.space, p), Values(split, p), Deploy(split, p);
    IsOpOf(copy, split);
    IsOpOf(values, split);
    IsOpOf(deploy, split);
    CopyLeft(pods, s0, s, split.key.space, p);
    ValuesLeft(pods, s0, s, split, p);
  }

  lemma AddressesKnown(pods: Pods, split: Split)
    requires forall p :: p in PIECES ==> Content(pods, split, p).Some?
    ensures forall p :: p in PIECES ==>
              PodAddress(pods, split, p).Some? && AtAddress(pods, split, p, PodAddress(pods, split, p).value)
  {
    assert Content(pods, split, CU).Some? && Content(pods, split, DU).Some?;
  }

  /** A Split all of whose steps have been taken is served, whatever other steps there were. */
  lemma HistoryServes(pods: Pods, ops: seq<Op>, s0: Store, split: Split)
    requires Coherent(Elements(ops)) && OpsOf(split) <= Elements(ops) && DoAll(pods, ops, s0).Some?
    ensures Served(pods, split, s0, DoAll(pods, ops, s0).value)
  {
    HistoryAmounts(pods, ops, s0);
    AmountsServe(pods, Elements(ops), s0, DoAll(pods, ops, s0).value, split);
  }

  lemma AmountsServe(pods: Pods, taken: set<Op>, s0: Store, s: Store, split: Split)
    requires Amounts(pods, s0, taken, s) && OpsOf(split) <= taken
    ensures Served(pods, split, s0, s)
  {
    PieceLeft(pods, taken, s0, s, split, CU);
    PieceLeft(pods, taken, s0, s, split, DU);
    PieceLeft(pods, taken, s0, s, split, RU);
    NamesAre(split.key.name);
    AddressesKnown(pods, split);
    var cu, du, ru :=
      PodAddress(pods, split, CU).value, PodAddress(pods, split, DU).value, PodAddress(pods, split, RU).value;
    assert AtAddress(pods, split, CU, cu) && AtAddress(pods, split, DU, du) && AtAddress(pods, split, RU, ru);
    assert ServedAt(s0, s, split, cu, du, ru);
  }

  /** The nine objects that a pass over a Split may write. */
  function Own(split: Split): set<Ref> {
    var space, name := split.key.space, split.key.name;
    {ConfigMapRef(Key(space, "operator-cu-template")), ConfigMapRef(Key(space, "operator-du-template")),
     ConfigMapRef(Key(space, "operator-ru-template")),
     ConfigMapRef(Key(space, "cu-" + name)), ConfigMapRef(Key(space, "du-" + name)),
     ConfigMapRef(Key(space, "ru-" + name)),
     DeploymentRef(Key(space, "cu-" + name)), DeploymentRef(Key(space, "du-" + name)),
     DeploymentRef(Key(space, "ru-" + name))}
  }

  ghost predicate ElsewhereKept(split: Split, s0: Store, s: Store) {
    forall r :: r !in Own(split) ==> (r in s <==> r in s0) && (r in s ==> s[r] == s0[r])
  }

  lemma TargetIsOwn(split: Split, op: Op)
    requires op in OpsOf(split)
    ensures Target(op) in Own(split)
  {
    IsOpOf(op, split);
    NamesAre(split.key.name);
  }

  /** A pass, however far it gets, writes nothing else. */
  lemma PassKeepsElsewhere(pods: Pods, pass: Pass, s0: Store)
    requires PassOf(pass) && DoAll(pods, pass.steps, s0).Some?
    ensures ElsewhereKept(pass.split, s0, DoAll(pods, pass.steps, s0).value)
  {
    StepsAreCoherent(pass);
    HistoryAmounts(pods, pass.steps, s0);
    forall r | r !in Own(pass.split) ensures !Touched(Elements(pass.steps), r) {
      forall op | op in Elements(pass.steps) ensures Target(op) != r {
        TargetIsOwn(pass.split, op);
      }
    }
  }

  lemma StepsAreCoherent(pass: Pass)
    requires PassOf(pass)
    ensures Coherent(Elements(pass.steps))
  {
    forall op | op in Elements(pass.steps) ensures Belongs(op, {pass.split}) {
      assert pass.split in {pass.split};
    }
    BelongingIsCoherent({pass.split}, Elements(pass.steps));
  }

  lemma FullPassServes(pods: Pods, pass: Pass, s0: Store)
    requires PassOf(pass) && Full(pass) && DoAll(pods, pass.steps, s0).Some?
    ensures Served(pods, pass.split, s0, DoAll(pods, pass.steps, s0).value)
  {
    StepsAreCoherent(pass);
    HistoryServes(pods, pass.steps, s0, pass.split);
  }

  // ---- the controller ----

  class ApiServer {
    /** No call to a healthy server fails. */
    const healthy: bool
    var objects: Store

    constructor (objects: Store, healthy: bool)
      ensures this.objects == objects && this.healthy == healthy
    {
      this.objects, this.healthy := objects, healthy;
    }
  }

  /** One step against the server, whose calls may fail; a failed write may or may not be stored. */
  method Attempt(server: ApiServer, pods: Pods, op: Op) returns (failed: bool, ghost taken: bool)
    modifies server
    ensures taken ==> Do(pods, op, old(server.objects)) == Some(server.objects)
    ensures !taken ==> failed && server.objects == old(server.objects)
    ensures server.healthy && failed ==> Do(pods, op, old(server.objects)).None?
  {
    var readFails: bool :| server.healthy ==> !readFails;
    var after := Do(pods, op, server.objects);
    if readFails || after.None? {
      return true, false;
    }
    if after.value == server.objects {
      return false, true;
    }
    var reached: bool :| server.healthy ==> reached;
    if reached {
      server.objects := after.value;
      failed :| server.healthy ==> !failed;
    } else {
      failed := true;
    }
    taken := reached;
  }

  lemma DoAllSnoc(pods: Pods, ops: seq<Op>, op: Op, s: Store)
    requires DoAll(pods, ops, s).Some?
    ensures DoAll(pods, ops + [op], s) == Do(pods, op, DoAll(pods, ops, s).value)
  {
    assert (ops + [op])[..|ops|] == ops;
  }

  lemma {:induction false} DoAllConcat(pods: Pods, a: seq<Op>, b: seq<Op>, s: Store)
    requires DoAll(pods, a, s).Some?
    ensures DoAll(pods, a + b, s) == DoAll(pods, b, DoAll(pods, a, s).value)
    decreases |b|
  {
    if b == [] {
      assert a + b == a;
    } else {
      var init, op := b[..|b|-1], b[|b|-1];
      assert (a + b)[..|a + b| - 1] == a + init;
      DoAllConcat(pods, a, init, s);
    }
  }

  /** Steps with nothing to write leave the store as it is. */
  lemma {:induction false} SettledSteps(pods: Pods, steps: seq<Op>, s: Store)
    requires forall op :: op in steps ==> Settled(pods, op, s)
    ensures DoAll(pods, steps, s) == Some(s)
    decreases |steps|
  {
    if steps == [] {
    } else {
      SettledSteps(pods, steps[..|steps|-1], s);
      assert Settled(pods, steps[|steps|-1], s);
    }
  }

  /** No step of a pass over the Split would write anything. */
  ghost predicate NothingToWrite(pods: Pods, split: Split, s: Store) {
    forall op :: op in OpsOf(split) ==> Settled(pods, op, s)
  }

  lemma SettledPass(pods: Pods, pass: Pass, s: Store)
    requires PassOf(pass) && NothingToWrite(pods, pass.split, s)
    ensures DoAll(pods, pass.steps, s) == Some(s)
  {
    SettledSteps(pods, pass.steps, s);
  }

  /** Some step of the stage cannot be taken after the steps `done`. */
  ghost predicate Stuck(pods: Pods, stage: set<Op>, done: seq<Op>, s0: Store) {
    exists op :: op in stage && DoAll(pods, done + [op], s0).None?
  }

  /** Takes the steps of one stage, in any order, until a call fails; `done` extends the steps taken before. */
  method SyncStage(server: ApiServer, pods: Pods, stage: set<Op>, ghost before: seq<Op>, ghost s0: Store)
    returns (failed: bool, ghost done: seq<Op>)
    requires DoAll(pods, before, s0) == Some(server.objects)
    modifies server
    ensures DoAll(pods, done, s0) == Some(server.objects)
    ensures before <= done && forall i :: |before| <= i < |done| ==> done[i] in stage
    ensures !failed ==> forall op :: op in stage ==> op in done
    ensures server.healthy && failed ==> Stuck(pods, stage, done, s0)
  {
    var todo := stage;
    done := before;
    while todo != {}
      invariant DoAll(pods, done, s0) == Some(server.objects)
      invariant forall op :: op in todo ==> op in stage
      invariant before <= done && forall i :: |before| <= i < |done| ==> done[i] in stage
      invariant forall op :: op in stage && op !in todo ==> op in done
      decreases todo
    {
      var op :| op in todo;
      var stepFailed, taken := Attempt(server, pods, op);
      if taken {
        DoAllSnoc(pods, done, op, s0);
        done := done + [op];
      }
      if stepFailed {
        if !taken {
          DoAllSnoc(pods, done, op, s0);
        }
        return true, done;
      }
      todo := todo - {op};
    }
    return false, done;
  }

  function StageOf(op: Op): nat {
    match op
    case Template(_, _) => 0
    case Values(_, _) => 1
    case Deploy(_, _) => 2
  }

  /** Templates come before values and values before deployments. */
  ghost predicate InStages(steps: seq<Op>) {
    forall i, k :: 0 <= i < k < |steps| ==> StageOf(steps[i]) <= StageOf(steps[k])
  }

  lemma StagesFollow(before: seq<Op>, after: seq<Op>, stage: set<Op>, n: nat)
    requires InStages(before) && before <= after && forall i :: |before| <= i < |after| ==> after[i] in stage
    requires forall op :: op in stage ==> StageOf(op) == n
    requires forall op :: op in before ==> StageOf(op) <= n
    ensures InStages(after) && forall op :: op in after ==> StageOf(op) <= n
  {
    forall i | 0 <= i < |after|
      ensures StageOf(after[i]) <= n && (i >= |before| ==> StageOf(after[i]) == n)
    {
      if i < |before| {
        assert after[i] == before[i] && before[i] in before;
      }
    }
    forall i, k | 0 <= i < k < |after| ensures StageOf(after[i]) <= StageOf(after[k]) {
      if k < |before| {
        assert after[i] == before[i] && after[k] == before[k];
      }
    }
  }

  /** Templates, then values, then deployments, stopping at the first failure. */
  method SyncAll(server: ApiServer, pods: Pods, split: Split) returns (failed: bool, ghost pass: Pass)
    modifies server
    ensures pass.split == split && PassOf(pass) && InStages(pass.steps) && (!failed ==> Full(pass))
    ensures DoAll(pods, pass.steps, old(server.objects)) == Some(server.objects)
    ensures server.healthy && failed ==> Stuck(pods, OpsOf(split), pass.steps, old(server.objects))
  {
    ghost var s0, before := server.objects, [];
    ghost var done;
    failed, done := SyncStage(server, pods, Templates(split), before, s0);
    StagesFollow(before, done, Templates(split), 0);
    if !failed {
      before := done;
      failed, done := SyncStage(server, pods, ValuesOf(split), before, s0);
      StagesFollow(before, done, ValuesOf(split), 1);
    }
    if !failed {
      before := done;
      failed, done := SyncStage(server, pods, Deployments(split), before, s0);
      StagesFollow(before, done, Deployments(split), 2);
    }
    pass := Pass(split, done);
  }

  /** A pass gets stuck only on a Split that was not ready. */
  lemma StuckIsUnready(pods: Pods, pass: Pass, s0: Store)
    requires PassOf(pass) && Stuck(pods, OpsOf(pass.split), pass.steps, s0)
    requires DoAll(pods, pass.steps, s0).Some?
    ensures !Ready(pods, pass.split, s0)
  {
    var op :| op in OpsOf(pass.split) && DoAll(pods, pass.steps + [op], s0).None?;
    if Ready(pods, pass.split, s0) {
      ReadyIff(pods, pass.split, s0);
      StepsAreCoherent(Pass(pass.split, pass.steps + [op]));
      AllSucceed(pods, pass.steps + [op], s0);
    }
  }

  lemma FullPassWasReady(pods: Pods, pass: Pass, s0: Store)
    requires PassOf(pass) && Full(pass) && DoAll(pods, pass.steps, s0).Some?
    ensures Ready(pods, pass.split, s0)
  {
    PassGoesThroughIff(pods, pass.split, pass.steps, s0);
  }

  /**
    One reconcile pass.  If it does not fail the Split is served; whether or not, nothing else is written.
    On a healthy server it fails only if the Split was not ready.
   */
  method Reconcile(server: ApiServer, pods: Pods, split: Split) returns (failed: bool, ghost pass: Pass)
    modifies server
    ensures pass.split == split && PassOf(pass) && InStages(pass.steps) && (!failed ==> Full(pass))
    ensures DoAll(pods, pass.steps, old(server.objects)) == Some(server.objects)
    ensures !failed ==> Ready(pods, split, old(server.objects))
    ensures !failed ==> Served(pods, split, old(server.objects), server.objects)
    ensures ElsewhereKept(split, old(server.objects), server.objects)
    ensures server.healthy && failed ==> !Ready(pods, split, old(server.objects))
    ensures NothingToWrite(pods, split, old(server.objects)) ==> server.objects == old(server.objects)
  {
    ghost var s0 := server.objects;
    failed, pass := SyncAll(server, pods, split);
    PassKeepsElsewhere(pods, pass, s0);
    if !failed {
      FullPassWasReady(pods, pass, s0);
      FullPassServes(pods, pass, s0);
    } else if server.healthy {
      StuckIsUnready(pods, pass, s0);
    }
    if NothingToWrite(pods, split, s0) {
      SettledPass(pods, pass, s0);
    }
  }

  lemma StepsSnoc(passes: seq<Pass>, pass: Pass)
    ensures Steps(passes + [pass]) == Steps(passes) + pass.steps
  {
    assert (passes + [pass])[..|passes|] == passes;
  }

  /** Other Splits' passes do not take a Split's readiness away. */
  lemma StaysReady(pods: Pods, splits: set<Split>, ops: seq<Op>, s0: Store, split: Split)
    requires Unique(splits) && split in splits && Ready(pods, split, s0)
    requires DoAll(pods, ops, s0).Some? && forall op :: op in ops ==> Belongs(op, splits)
    ensures Ready(pods, split, DoAll(pods, ops, s0).value)
  {
    BelongingIsCoherent(splits, Elements(ops));
    HistoryAmounts(pods, ops, s0);
    ReadyIff(pods, split, s0);
    forall op | op in OpsOf(split) ensures Next(pods, op, DoAll(pods, ops, s0).value).Some? {
      assert Belongs(op, splits);
      BelongingIsCoherent(splits, Elements(ops + [op]));
      forall other | other in ops + [op] ensures Next(pods, other, s0).Some? {
        assert other in ops ==> other in Elements(ops);
      }
      AllSucceed(pods, ops + [op], s0);
      DoAllSnoc(pods, ops, op, s0);
    }
    ReadyIff(pods, split, DoAll(pods, ops, s0).value);
  }

  lemma StepsBelong(passes: seq<Pass>, splits: set<Split>)
    requires forall i :: 0 <= i < |passes| ==> passes[i].split in splits && PassOf(passes[i])
    ensures forall op :: op in Steps(passes) ==> Belongs(op, splits)
  {
    forall op | op in Steps(passes) ensures Belongs(op, splits) {
      StepsFrom(passes, op);
    }
  }

  /** These passes are over the first Splits asked for, and took all of their steps if they did not fail. */
  ghost predicate PassesFor(requests: seq<Split>, failures: seq<bool>, passes: seq<Pass>) {
    && |failures| == |passes| <= |requests|
    && forall i {:trigger passes[i]} :: 0 <= i < |passes| ==> PassFor(requests[i], failures[i], passes[i])
  }

  ghost predicate PassFor(request: Split, failed: bool, pass: Pass) {
    match failed
    case true => pass.split == request && PassOf(pass)
    case false => pass.split == request && PassOf(pass) && Full(pass)
  }

  /** The Splits asked for are told apart by their names, and a pass over each could go through. */
  ghost predicate AllReady(pods: Pods, splits: set<Split>, s: Store) {
    Unique(splits) && forall split :: split in splits ==> Ready(pods, split, s)
  }

  lemma NextIsReady(pods: Pods, requests: seq<Split>, failures: seq<bool>, passes: seq<Pass>, s0: Store)
    requires PassesFor(requests, failures, passes) && |passes| < |requests|
    requires AllReady(pods, Requested(requests), s0) && DoAll(pods, Steps(passes), s0).Some?
    ensures Ready(pods, requests[|passes|], DoAll(pods, Steps(passes), s0).value)
  {
    assert requests[|passes|] in Requested(requests);
    StepsBelong(passes, Requested(requests));
    StaysReady(pods, Requested(requests), Steps(passes), s0, requests[|passes|]);
  }

  lemma OneMorePass(requests: seq<Split>, failures: seq<bool>, passes: seq<Pass>, failed: bool, pass: Pass)
    requires PassesFor(requests, failures, passes) && |passes| < |requests|
    requires PassFor(requests[|passes|], failed, pass)
    ensures PassesFor(requests, failures + [failed], passes + [pass])
  {
    var f, p := failures + [failed], passes + [pass];
    forall i | 0 <= i < |p| ensures PassFor(requests[i], f[i], p[i]) {
      if i < |passes| {
        assert p[i] == passes[i] && f[i] == failures[i];
      }
    }
  }

  lemma StepsGoOn(pods: Pods, passes: seq<Pass>, s0: Store, pass: Pass)
    requires DoAll(pods, Steps(passes), s0).Some?
    ensures DoAll(pods, Steps(passes + [pass]), s0) == DoAll(pods, pass.steps, DoAll(pods, Steps(passes), s0).value)
  {
    StepsSnoc(passes, pass);
    DoAllConcat(pods, Steps(passes), pass.steps, s0);
  }

  /** The next pass, over the next Split asked for. */
  method ReconcileNext(server: ApiServer, pods: Pods, requests: seq<Split>, i: nat, ghost failures: seq<bool>,
                       ghost passes: seq<Pass>, ghost s0: Store) returns (failed: bool, ghost pass: Pass)
    requires i == |passes| < |requests| && PassesFor(requests, failures, passes)
    requires DoAll(pods, Steps(passes), s0) == Some(server.objects)
    modifies server
    ensures PassesFor(requests, failures + [failed], passes + [pass])
    ensures DoAll(pods, Steps(passes + [pass]), s0) == Some(server.objects)
    ensures server.healthy && AllReady(pods, Requested(requests), s0) ==> !failed
  {
    if AllReady(pods, Requested(requests), s0) {
      NextIsReady(pods, requests, failures, passes, s0);
    }
    failed, pass := Reconcile(server, pods, requests[i]);
    OneMorePass(requests, failures, passes, failed, pass);
    StepsGoOn(pods, passes, s0, pass);
  }

  /** Reconciles the Splits in the order in which requests for them arrive, whether passes fail or not. */
  method ReconcileAll(server: ApiServer, pods: Pods, requests: seq<Split>)
    returns (failures: seq<bool>, ghost passes: seq<Pass>)
    modifies server
    ensures |failures| == |requests| && PassesFor(requests, failures, passes)
    ensures DoAll(pods, Steps(passes), old(server.objects)) == Some(server.objects)
    ensures server.healthy && AllReady(pods, Requested(requests), old(server.objects)) ==> NoneFailed(failures)
  {
    failures, passes := [], [];
    ghost var s0 := server.objects;
    for i := 0 to |requests|
      invariant |passes| == i && PassesFor(requests, failures, passes)
      invariant DoAll(pods, Steps(passes), s0) == Some(server.objects)
      invariant server.healthy && AllReady(pods, Requested(requests), s0) ==> NoneFailed(failures)
    {
      var failed, pass := ReconcileNext(server, pods, requests, i, failures, passes, s0);
      failures, passes := failures + [failed], passes + [pass];
    }
  }

  /**
    Convergence on the server.  Requests arrive in any order and any of their passes may fail; if each
    Split has had one that did not, the store is that of any clean passes, in any order, and reconciling
    once more changes nothing.
   */
  method ReconcileUntilDone(server: ApiServer, pods: Pods, requests: seq<Split>, ghost clean: seq<Pass>)
    returns (failures: seq<bool>)
    requires Unique(Requested(requests)) && Thorough(Requested(requests), clean)
    modifies server
    ensures |failures| == |requests|
    ensures EachSucceeded(requests, failures) ==>
              && DoAll(pods, Steps(clean), old(server.objects)) == Some(server.objects)
              && (forall s :: s in requests ==> NothingToWrite(pods, s, server.objects))
              && (forall s :: s in requests ==> Served(pods, s, old(server.objects), server.objects))
    ensures server.healthy && AllReady(pods, Requested(requests), old(server.objects)) ==>
              EachSucceeded(requests, failures)
  {
    ghost var s0 := server.objects;
    ghost var passes;
    failures, passes := ReconcileAll(server, pods, requests);
    if EachSucceeded(requests, failures) {
      SucceededIsThorough(requests, failures, passes);
      PassesConverge(pods, Requested(requests), passes, clean, s0);
      ThoroughServes(pods, Requested(requests), passes, s0);
      forall s | s in requests ensures NothingToWrite(pods, s, server.objects) {
        assert s in Requested(requests);
        forall op | op in OpsOf(s) ensures Settled(pods, op, server.objects) {
          assert Belongs(op, Requested(requests));
        }
      }
    }
  }

  /** Thorough passes serve every Split among them. */
  lemma ThoroughServes(pods: Pods, splits: set<Split>, passes: seq<Pass>, s0: Store)
    requires Unique(splits) && Thorough(splits, passes) && DoAll(pods, Steps(passes), s0).Some?
    ensures forall split :: split in splits ==> Served(pods, split, s0, DoAll(pods, Steps(passes), s0).value)
  {
    StepsBelong(passes, splits);
    BelongingIsCoherent(splits, Elements(Steps(passes)));
    forall split | split in splits ensures Served(pods, split, s0, DoAll(pods, Steps(passes), s0).value) {
      forall op | op in OpsOf(split) ensures op in Elements(Steps(passes)) {
        assert Belongs(op, splits);
        ThoroughTakesAll(splits, passes, op);
      }
      HistoryServes(pods, Steps(passes), s0, split);
    }
  }

  ghost predicate NoneFailed(failures: seq<bool>) {
    forall i :: 0 <= i < |failures| ==> !failures[i]
  }

  ghost function Requested(requests: seq<Split>): set<Split> {
    set s | s in requests
  }

  /** Every Split asked for has had a pass that did not fail. */
  ghost predicate EachSucceeded(requests: seq<Split>, failures: seq<bool>)
    requires |failures| == |requests|
  {
    forall s :: s in requests ==> exists i :: 0 <= i < |requests| && requests[i] == s && !failures[i]
  }

  lemma SucceededIsThorough(requests: seq<Split>, failures: seq<bool>, passes: seq<Pass>)
    requires |failures| == |requests| && PassesFor(requests, failures, passes) && EachSucceeded(requests, failures)
    ensures Thorough(Requested(requests), passes)
  {
    forall s | s in Requested(requests) ensures HasFull(passes, s) {
      var i :| 0 <= i < |requests| && requests[i] == s && !failures[i];
      assert passes[i].split == s && Full(passes[i]);
    }
  }
}
