/**
 The manifest of a backfill run: an append-only file of JSON lines that holds
 the frozen plan, its completion marker and one result per image, read back
 after any cut.
 */
module ManifestLog {
  import opened Json
  import opened Wrappers

  type Digest = string

  const TARGET := "media-asset-backfill-v2"

  const INVALID := "invalid_media_asset_manifest"
  const PLAN_MISMATCH := "manifest_plan_mismatch"
  const TARGET_MISMATCH := "manifest_target_mismatch"
  const RUN_MISMATCH := "manifest_run_id_mismatch"
  const TORN := "media_asset_manifest_torn_tail_requires_execute"
  const RESET_FORBIDDEN := "media_asset_plan_reset_forbidden"

  const PRELIMINARY_REASONS: set<string> := {
    "extra_derivative", "file_identity_mismatch", "invalid_dimensions", "invalid_media_file", "invalid_named_leaf",
    "missing_derivative", "multi_owner", "orphan", "pipeline_closure_mismatch", "processing_pixel_limit_exceeded",
    "unsafe_media_file"}

  // ---------------------------------------------------------------- dictionaries

  function Build(keys: seq<string>, values: seq<Json>): Fields
    requires |keys| == |values|
  {
    if keys == [] then NoField else Field(keys[0], values[0], Build(keys[1..], values[1..]))
  }

  /** The value of a key; the last one counts. */
  function Get(fs: Fields, key: string): Option<Json> {
    match fs
    case NoField => None
    case Field(k, v, rest) =>
      var later := Get(rest, key);
      if later.Some? then later else if k == key then Some(v) else None
  }

  function KeySet(fs: Fields): set<string> {
    match fs
    case NoField => {}
    case Field(k, _, rest) => {k} + KeySet(rest)
  }

  function Elements(keys: seq<string>): set<string> {
    set k | k in keys
  }

  ghost predicate Distinct(keys: seq<string>) {
    forall i, j :: 0 <= i < j < |keys| ==> keys[i] != keys[j]
  }

  lemma {:induction false} GetBuilt(keys: seq<string>, values: seq<Json>)
    requires |keys| == |values| && Distinct(keys)
    ensures forall i :: 0 <= i < |keys| ==> Get(Build(keys, values), keys[i]) == Some(values[i])
    ensures forall k :: k !in keys ==> Get(Build(keys, values), k) == None
  {
    if keys != [] {
      GetBuilt(keys[1..], values[1..]);
      forall i | 0 <= i < |keys| ensures Get(Build(keys, values), keys[i]) == Some(values[i]) {
        if i > 0 { assert keys[1..][i - 1] == keys[i]; }
      }
    }
  }

  predicate HasAll(fs: Fields, keys: seq<string>) {
    forall k :: k in keys ==> Get(fs, k).Some?
  }

  function ReadAll(fs: Fields, keys: seq<string>): (r: seq<Json>)
    requires HasAll(fs, keys)
    ensures |r| == |keys|
  {
    seq(|keys|, i requires 0 <= i < |keys| => Get(fs, keys[i]).value)
  }

  lemma ReadBuilt(keys: seq<string>, values: seq<Json>)
    requires |keys| == |values| && Distinct(keys)
    ensures HasAll(Build(keys, values), keys) && ReadAll(Build(keys, values), keys) == values
  {
    GetBuilt(keys, values);
  }

  lemma {:induction false} KeysBuilt(keys: seq<string>, values: seq<Json>)
    requires |keys| == |values|
    ensures KeySet(Build(keys, values)) == Elements(keys)
  {
    if keys != [] {
      KeysBuilt(keys[1..], values[1..]);
      assert keys == [keys[0]] + keys[1..];
    }
  }

  function AllAsLists(values: seq<Json>): (r: seq<Json>)
    ensures |r| == |values|
  {
    seq(|values|, i requires 0 <= i < |values| => AsLists(values[i]))
  }

  lemma {:induction false} BuildAsLists(keys: seq<string>, values: seq<Json>)
    requires |keys| == |values|
    ensures FieldsAsLists(Build(keys, values)) == Build(keys, AllAsLists(values))
  {
    if keys != [] {
      BuildAsLists(keys[1..], values[1..]);
      assert AllAsLists(values)[1..] == AllAsLists(values[1..]);
    }
  }

  // ---------------------------------------------------------------- plans

  /** The nine fields as they are in memory; nothing is known of their types before validation. */
  datatype Plan = Plan(
    image: Json, submitter: Json, sha: Json, database: Json, files: Json, owners: Json,
    registry: Json, keyRegistry: Json, reason: Json)

  /** In the order in which they are written. */
  const PLAN_KEYS: seq<string> := [
    "content_sha256", "database_signature", "file_identities", "image_id", "key_registry_signature",
    "owner_ids", "preliminary_reason", "registry_signature", "submitter_id"]

  function PlanValues(p: Plan): seq<Json> {
    [p.sha, p.database, p.files, p.image, p.keyRegistry, p.owners, p.reason, p.registry, p.submitter]
  }

  function AsDict(p: Plan): Json {
    Dict(Build(PLAN_KEYS, PlanValues(p)))
  }

  function Length(xs: Items): nat {
    match xs
    case End => 0
    case Item(_, rest) => 1 + Length(rest)
  }

  predicate AllInts(xs: Items) {
    match xs
    case End => true
    case Item(x, rest) => x.Int? && AllInts(rest)
  }

  predicate ValidDigest(j: Json) {
    j.Str? && |j.s| == 64 && forall c :: c in j.s ==> c in "0123456789abcdef"
  }

  predicate ValidSignature(j: Json) {
    j.Null? ||
    (match j
     case Tuple(Item(Int(_), Item(Int(_), Item(Int(_), Item(d, End))))) => ValidDigest(d)
     case _ => false)
  }

  predicate ValidPlan(p: Plan) {
    && p.image.Int? && p.image.n > 0
    && p.database.Tuple? && Length(p.database.items) == 7 && p.database.items.head == p.image
    && p.owners.Tuple? && Length(p.owners.items) <= 2 && AllInts(p.owners.items)
    && ValidSignature(p.registry) && ValidSignature(p.keyRegistry)
    && (if p.reason.Null? then
          && p.submitter.Int? && p.submitter.n > 0 && p.owners.items == Item(p.submitter, End)
          && ValidDigest(p.sha) && p.files.Tuple? && Length(p.files.items) == 4
        else
          p.reason.Str? && p.reason.s in PRELIMINARY_REASONS && p.submitter.Null? && p.sha.Null?)
  }

  function FromDict(j: Json): Result<Plan, string> {
    if !j.Dict? || KeySet(j.fields) != Elements(PLAN_KEYS) || !HasAll(j.fields, PLAN_KEYS) then Err(INVALID)
    else
      var p := PlanOf(ReadAll(j.fields, PLAN_KEYS));
      if ValidPlan(p) then Ok(p) else Err(INVALID)
  }

  /** The plan with these values, its signatures as tuples. */
  function PlanOf(vs: seq<Json>): Plan
    requires |vs| == 9
  {
    Plan(vs[3], vs[8], vs[0], Tupleize(vs[1]), Tupleize(vs[2]), Tupleize(vs[5]), Tupleize(vs[7]), Tupleize(vs[4]), vs[6])
  }

  /** Its signatures are tuples all the way down. */
  predicate FrozenPlan(p: Plan) {
    Frozen(p.database) && Frozen(p.files) && Frozen(p.owners) && Frozen(p.registry) && Frozen(p.keyRegistry)
  }

  lemma PlanKeysDistinct()
    ensures Distinct(PLAN_KEYS)
  {
  }

  lemma PlanOfLists(p: Plan)
    requires ValidPlan(p) && FrozenPlan(p)
    ensures PlanOf(AllAsLists(PlanValues(p))) == p
  {
    TupleizeUndoes(p.database);
    TupleizeUndoes(p.files);
    TupleizeUndoes(p.owners);
    TupleizeUndoes(p.registry);
    TupleizeUndoes(p.keyRegistry);
  }

  /** A plan comes back from the file as it was. */
  lemma PlanRoundTrip(p: Plan)
    requires ValidPlan(p) && FrozenPlan(p)
    ensures FromDict(AsLists(AsDict(p))) == Ok(p)
  {
    var vs := AllAsLists(PlanValues(p));
    BuildAsLists(PLAN_KEYS, PlanValues(p));
    KeysBuilt(PLAN_KEYS, vs);
    PlanKeysDistinct();
    ReadBuilt(PLAN_KEYS, vs);
    PlanOfLists(p);
  }

  // ---------------------------------------------------------------- reading a manifest

  datatype Context = Context(run: string, sha: string -> Digest)

  datatype State = State(
    plans: seq<Plan>, complete: bool, planEnd: Option<nat>, planSha: Option<Digest>,
    results: map<int, string>, torn: Option<string>, tornOffset: Option<nat>, manifestSha: Digest)

  function Initial(manifestSha: Digest): State {
    State([], false, None, None, map[], None, None, manifestSha)
  }

  predicate HasImage(plans: seq<Plan>, image: Json) {
    exists i :: 0 <= i < |plans| && plans[i].image == image
  }

  /** The common fields of every event. */
  function Fault(c: Context, fs: Fields): Option<string> {
    if Get(fs, "format_version") != Some(Int(2)) then Some(INVALID)
    else if Get(fs, "target_signature") != Some(Str(TARGET)) then Some(TARGET_MISMATCH)
    else if Get(fs, "run_id") != Some(Str(c.run)) then Some(RUN_MISMATCH)
    else None
  }

  function Planned(fs: Fields, st: State): Result<State, string> {
    if st.complete then Err(INVALID)
    else
      match Get(fs, "plan")
      case None => Err(INVALID)
      case Some(j) =>
        match FromDict(j)
        case Err(e) => Err(e)
        case Ok(p) =>
          if HasImage(st.plans, p.image) then Err(PLAN_MISMATCH) else Ok(st.(plans := st.plans + [p]))
  }

  /** `upTo` is the file up to and including this line. */
  function Completed(c: Context, fs: Fields, st: State, upTo: string): Result<State, string> {
    if st.complete then Err(INVALID)
    else if Get(fs, "scanned") != Some(Int(|st.plans|)) then Err(PLAN_MISMATCH)
    else Ok(st.(complete := true, planEnd := Some(|upTo|), planSha := Some(c.sha(upTo))))
  }

  function Resulted(fs: Fields, name: string, st: State): Result<State, string> {
    if !st.complete then Err(INVALID)
    else
      match Get(fs, "image_id")
      case Some(Int(n)) =>
        if !HasImage(st.plans, Int(n)) then Err(PLAN_MISMATCH)
        else if st.planSha.None? || Get(fs, "plan_sha256") != Some(Str(st.planSha.value)) then Err(PLAN_MISMATCH)
        else if n in st.results then Err(INVALID)
        else if name == "skipped"
                && !(Get(fs, "reason_code").Some? && Get(fs, "reason_code").value.Str? && Get(fs, "reason_code").value.s != "")
        then Err(INVALID)
        else Ok(st.(results := st.results[n := name]))
      case _ => Err(PLAN_MISMATCH)
  }

  function Read(c: Context, j: Json, st: State, upTo: string): Result<State, string> {
    if !j.Dict? then Err(INVALID)
    else if Fault(c, j.fields).Some? then Err(Fault(c, j.fields).value)
    else
      match Get(j.fields, "event")
      case Some(Str(name)) =>
        if name == "planned" then Planned(j.fields, st)
        else if name == "plan_complete" then Completed(c, j.fields, st, upTo)
        else if name in {"registered", "skipped", "already_registered", "recovered_registered"}
        then Resulted(j.fields, name, st)
        else Err(INVALID)
      case _ => Err(INVALID)
  }

  function ReadLine(c: Context, body: string, st: State, upTo: string): Result<State, string> {
    match Decode(body)
    case None => Err(INVALID)
    case Some(j) => Read(c, j, st, upTo)
  }

  /** From the text of a line, the state before it, and the file up to its end, to the state after it. */
  type LineReader = (string, State, string) -> Result<State, string>

  function Reader(c: Context): LineReader {
    (body, st, upTo) => ReadLine(c, body, st, upTo)
  }

  /** Where the line that contains position `i` ends: after a line feed, a carriage return, or both together. */
  function LineEnd(raw: string, i: nat): (n: nat)
    requires i <= |raw|
    ensures i <= n <= |raw| && (i < |raw| ==> i < n)
    decreases |raw| - i
  {
    if i == |raw| then i
    else if raw[i] == '\n' then i + 1
    else if raw[i] == '\r' then (if i + 1 < |raw| && raw[i + 1] == '\n' then i + 2 else i + 1)
    else LineEnd(raw, i + 1)
  }

  /** The state read from the lines from `offset` on; an unfinished last line is kept aside. */
  function LoadFrom(read: LineReader, raw: string, offset: nat, st: State): Result<State, string>
    requires offset <= |raw|
    decreases |raw| - offset
  {
    if offset == |raw| then Ok(st)
    else
      var next := LineEnd(raw, offset);
      if raw[next - 1] != '\n' then
        if next < |raw| then Err(INVALID)
        else Ok(st.(torn := Some(raw[offset..]), tornOffset := Some(offset)))
      else
        match read(raw[offset..next - 1], st, raw[..next])
        case Err(e) => Err(e)
        case Ok(st') => LoadFrom(read, raw, next, st')
  }

  function Load(c: Context, raw: string): Result<State, string> {
    LoadFrom(Reader(c), raw, 0, Initial(c.sha(raw)))
  }

  // ---------------------------------------------------------------- writing the frozen plan

  const PLANNED_KEYS: seq<string> := ["event", "format_version", "plan", "run_id", "target_signature"]
  const COMPLETE_KEYS: seq<string> := ["event", "format_version", "run_id", "scanned", "target_signature"]

  function PlannedEvent(c: Context, p: Plan): Json {
    Dict(Build(PLANNED_KEYS, [Str("planned"), Int(2), AsDict(p), Str(c.run), Str(TARGET)]))
  }

  function CompleteEvent(c: Context, scanned: nat): Json {
    Dict(Build(COMPLETE_KEYS, [Str("plan_complete"), Int(2), Str(c.run), Int(scanned), Str(TARGET)]))
  }

  function Line(j: Json): string {
    Encode(j) + ['\n']
  }

  /** The lines of the first `m` plans. */
  function PlanLines(c: Context, plans: seq<Plan>, m: nat): string
    requires m <= |plans|
  {
    if m == 0 then [] else PlanLines(c, plans, m - 1) + Line(PlannedEvent(c, plans[m - 1]))
  }

  function FrozenText(c: Context, plans: seq<Plan>): string {
    PlanLines(c, plans, |plans|) + Line(CompleteEvent(c, |plans|))
  }

  ghost predicate Writable(plans: seq<Plan>) {
    && (forall i :: 0 <= i < |plans| ==> ValidPlan(plans[i]) && FrozenPlan(plans[i]))
    && (forall i, j :: 0 <= i < j < |plans| ==> plans[i].image != plans[j].image)
  }

  // ---------------------------------------------------------------- reading back what was written

  predicate Unbroken(raw: string, lo: nat, hi: nat)
    requires hi <= |raw|
  {
    forall i :: lo <= i < hi ==> ' ' <= raw[i] <= '~'
  }

  lemma {:induction false} OneLine(raw: string, i: nat, n: nat)
    requires i <= n < |raw| && Unbroken(raw, i, n) && raw[n] == '\n'
    ensures LineEnd(raw, i) == n + 1
    decreases n - i
  {
    if i < n { OneLine(raw, i + 1, n); }
  }

  lemma {:induction false} TornLine(raw: string, i: nat)
    requires i <= |raw| && Unbroken(raw, i, |raw|)
    ensures LineEnd(raw, i) == |raw|
    decreases |raw| - i
  {
    if i < |raw| { TornLine(raw, i + 1); }
  }

  /** A whole line is handed to the reader and reading goes on after it. */
  lemma ReadsLine(read: LineReader, raw: string, offset: nat, next: nat, st: State, body: string, upTo: string, st': State)
    requires offset <= next <= |raw| && next == offset + |body| + 1 && upTo == raw[..next]
    requires Printable(body) && body + ['\n'] <= raw[offset..] && read(body, st, upTo) == Ok(st')
    ensures LoadFrom(read, raw, offset, st) == LoadFrom(read, raw, next, st')
  {
    LineFound(raw, offset, body);
    WholeLineStep(read, raw, offset, next, st, body, st');
  }

  lemma LineFound(raw: string, offset: nat, body: string)
    requires offset <= |raw| && Printable(body) && body + ['\n'] <= raw[offset..]
    ensures var n := offset + |body|;
            n < |raw| && LineEnd(raw, offset) == n + 1 && raw[offset..n] == body && raw[n] == '\n'
  {
    var n := offset + |body|;
    assert raw[n] == raw[offset..][|body|];
    assert raw[offset..n] == raw[offset..][..|body|] == body;
    forall i | offset <= i < n ensures ' ' <= raw[i] <= '~' {
      assert raw[i] == body[i - offset] && body[i - offset] in body;
    }
    OneLine(raw, offset, n);
  }

  lemma WholeLineStep(read: LineReader, raw: string, offset: nat, next: nat, st: State, body: string, st': State)
    requires offset < next <= |raw| && next == LineEnd(raw, offset) && raw[next - 1] == '\n'
    requires raw[offset..next - 1] == body && read(body, st, raw[..next]) == Ok(st')
    ensures LoadFrom(read, raw, offset, st) == LoadFrom(read, raw, next, st')
  {
  }

  lemma TornStep(read: LineReader, raw: string, offset: nat, st: State)
    requires offset < |raw| == LineEnd(raw, offset) && raw[|raw| - 1] != '\n'
    ensures LoadFrom(read, raw, offset, st) == Ok(st.(torn := Some(raw[offset..]), tornOffset := Some(offset)))
  {
  }

  lemma ReaderReads(c: Context, j: Json, st: State, upTo: string)
    ensures Reader(c)(Encode(j), st, upTo) == Read(c, AsLists(j), st, upTo)
  {
    DecodeEncode(j);
  }

  lemma EventKeysDistinct()
    ensures Distinct(PLANNED_KEYS) && Distinct(COMPLETE_KEYS)
  {
  }

  lemma ReadsPlanned(c: Context, p: Plan, st: State, upTo: string)
    requires ValidPlan(p) && FrozenPlan(p) && !st.complete && !HasImage(st.plans, p.image)
    ensures Read(c, AsLists(PlannedEvent(c, p)), st, upTo) == Ok(st.(plans := st.plans + [p]))
  {
    var vs := [Str("planned"), Int(2), AsDict(p), Str(c.run), Str(TARGET)];
    BuildAsLists(PLANNED_KEYS, vs);
    EventKeysDistinct();
    GetBuilt(PLANNED_KEYS, AllAsLists(vs));
    var fs := Build(PLANNED_KEYS, AllAsLists(vs));
    assert Get(fs, PLANNED_KEYS[0]) == Some(Str("planned")) && Get(fs, PLANNED_KEYS[1]) == Some(Int(2));
    assert Get(fs, PLANNED_KEYS[2]) == Some(AsLists(AsDict(p)));
    assert Get(fs, PLANNED_KEYS[3]) == Some(Str(c.run)) && Get(fs, PLANNED_KEYS[4]) == Some(Str(TARGET));
    PlannedAdds(fs, p, st);
  }

  lemma PlannedAdds(fs: Fields, p: Plan, st: State)
    requires ValidPlan(p) && FrozenPlan(p) && !st.complete && !HasImage(st.plans, p.image)
    requires Get(fs, "plan") == Some(AsLists(AsDict(p)))
    ensures Planned(fs, st) == Ok(st.(plans := st.plans + [p]))
  {
    PlanRoundTrip(p);
  }

  lemma ReadsComplete(c: Context, st: State, upTo: string)
    requires !st.complete
    ensures Read(c, AsLists(CompleteEvent(c, |st.plans|)), st, upTo) ==
            Ok(st.(complete := true, planEnd := Some(|upTo|), planSha := Some(c.sha(upTo))))
  {
    var vs := [Str("plan_complete"), Int(2), Str(c.run), Int(|st.plans|), Str(TARGET)];
    BuildAsLists(COMPLETE_KEYS, vs);
    EventKeysDistinct();
    GetBuilt(COMPLETE_KEYS, AllAsLists(vs));
    var fs := Build(COMPLETE_KEYS, AllAsLists(vs));
    assert Get(fs, COMPLETE_KEYS[0]) == Some(Str("plan_complete")) && Get(fs, COMPLETE_KEYS[1]) == Some(Int(2));
    assert Get(fs, COMPLETE_KEYS[2]) == Some(Str(c.run)) && Get(fs, COMPLETE_KEYS[3]) == Some(Int(|st.plans|));
    assert Get(fs, COMPLETE_KEYS[4]) == Some(Str(TARGET));
  }

  lemma NextLine(raw: string, before: string, line: string)
    requires before + line <= raw
    ensures before <= raw && line <= raw[|before|..] && |before + line| == |before| + |line|
  {
    assert raw[|before|..][..|line|] == raw[..|before| + |line|][|before|..];
  }

  function Reading(c: Context, raw: string, plans: seq<Plan>, m: nat): State
    requires m <= |plans|
  {
    Initial(c.sha(raw)).(plans := plans[..m])
  }

  lemma NewImage(plans: seq<Plan>, m: nat)
    requires Writable(plans) && m < |plans|
    ensures !HasImage(plans[..m], plans[m].image) && ValidPlan(plans[m]) && FrozenPlan(plans[m])
  {
  }

  /** From one plan's line to the next. */
  lemma ReadsNextPlan(read: LineReader, c: Context, raw: string, plans: seq<Plan>, m: nat)
    requires m < |plans| && PlanLines(c, plans, m + 1) <= raw
    requires read(Encode(PlannedEvent(c, plans[m])), Reading(c, raw, plans, m), raw[..|PlanLines(c, plans, m + 1)|])
             == Ok(Reading(c, raw, plans, m + 1))
    ensures PlanLines(c, plans, m) <= raw
    ensures LoadFrom(read, raw, |PlanLines(c, plans, m)|, Reading(c, raw, plans, m))
         == LoadFrom(read, raw, |PlanLines(c, plans, m + 1)|, Reading(c, raw, plans, m + 1))
  {
    NextLine(raw, PlanLines(c, plans, m), Line(PlannedEvent(c, plans[m])));
    EncodingPrintable(PlannedEvent(c, plans[m]));
    var next := |PlanLines(c, plans, m + 1)|;
    ReadsLine(read, raw, |PlanLines(c, plans, m)|, next, Reading(c, raw, plans, m), Encode(PlannedEvent(c, plans[m])),
              raw[..next], Reading(c, raw, plans, m + 1));
  }

  lemma PlanIsRead(c: Context, raw: string, plans: seq<Plan>, m: nat, upTo: string)
    requires Writable(plans) && m < |plans|
    ensures Reader(c)(Encode(PlannedEvent(c, plans[m])), Reading(c, raw, plans, m), upTo)
         == Ok(Reading(c, raw, plans, m + 1))
  {
    NewImage(plans, m);
    assert plans[..m + 1] == plans[..m] + [plans[m]];
    ReadsPlanned(c, plans[m], Reading(c, raw, plans, m), upTo);
    ReaderReads(c, PlannedEvent(c, plans[m]), Reading(c, raw, plans, m), upTo);
  }

  lemma PassesPlan(c: Context, raw: string, plans: seq<Plan>, m: nat)
    requires Writable(plans) && m < |plans| && PlanLines(c, plans, m + 1) <= raw
    ensures PlanLines(c, plans, m) <= raw
    ensures LoadFrom(Reader(c), raw, |PlanLines(c, plans, m)|, Reading(c, raw, plans, m))
         == LoadFrom(Reader(c), raw, |PlanLines(c, plans, m + 1)|, Reading(c, raw, plans, m + 1))
  {
    PlanIsRead(c, raw, plans, m, raw[..|PlanLines(c, plans, m + 1)|]);
    ReadsNextPlan(Reader(c), c, raw, plans, m);
  }

  /** Reading gets past the lines of the first `m` plans with exactly those plans. */
  lemma {:induction false} ReadsPlanLines(c: Context, raw: string, plans: seq<Plan>, m: nat)
    requires Writable(plans) && m <= |plans| && PlanLines(c, plans, m) <= raw
    ensures Load(c, raw) == LoadFrom(Reader(c), raw, |PlanLines(c, plans, m)|, Reading(c, raw, plans, m))
  {
    hide LoadFrom, Writable, Line, PlannedEvent, Encode;
    if m > 0 {
      PassesPlan(c, raw, plans, m - 1);
      ReadsPlanLines(c, raw, plans, m - 1);
    } else {
      assert plans[..0] == [];
    }
  }

  /** The rest of a file without a line break is set aside. */
  lemma ReadsRest(read: LineReader, raw: string, offset: nat, st: State)
    requires offset <= |raw| && Printable(raw[offset..])
    ensures LoadFrom(read, raw, offset, st) ==
            Ok(if offset == |raw| then st else st.(torn := Some(raw[offset..]), tornOffset := Some(offset)))
  {
    if offset < |raw| {
      forall i | offset <= i < |raw| ensures ' ' <= raw[i] <= '~' {
        assert raw[i] == raw[offset..][i - offset] && raw[i] in raw[offset..];
      }
      TornLine(raw, offset);
      TornStep(read, raw, offset, st);
    }
  }

  /** What is left after whole plan lines: nothing, or the beginning of one more line. */
  lemma ReadsTail(c: Context, raw: string, plans: seq<Plan>, m: nat)
    requires Writable(plans) && m <= |plans| && PlanLines(c, plans, m) <= raw
    requires Printable(raw[|PlanLines(c, plans, m)|..])
    ensures var done := |PlanLines(c, plans, m)|;
            var st := Reading(c, raw, plans, m);
            Load(c, raw) == Ok(if done == |raw| then st
                               else st.(torn := Some(raw[done..]), tornOffset := Some(done)))
  {
    ReadsPlanLines(c, raw, plans, m);
    ReadsRest(Reader(c), raw, |PlanLines(c, plans, m)|, Reading(c, raw, plans, m));
  }

  lemma ReadsFrozenText(c: Context, plans: seq<Plan>)
    requires Writable(plans)
    ensures var raw := FrozenText(c, plans);
            Load(c, raw) == Ok(State(plans, true, Some(|raw|), Some(c.sha(raw)), map[], None, None, c.sha(raw)))
  {
    var raw := FrozenText(c, plans);
    ReadsPlanLines(c, raw, plans, |plans|);
    ReadsCompleteLine(c, plans);
    assert plans[..|plans|] == plans;
  }

  lemma ReadsCompleteLine(c: Context, plans: seq<Plan>)
    requires Writable(plans)
    ensures var raw := FrozenText(c, plans);
            var st := Reading(c, raw, plans, |plans|);
            LoadFrom(Reader(c), raw, |PlanLines(c, plans, |plans|)|, st) ==
            Ok(st.(complete := true, planEnd := Some(|raw|), planSha := Some(c.sha(raw))))
  {
    var raw, before := FrozenText(c, plans), PlanLines(c, plans, |plans|);
    var st := Reading(c, raw, plans, |plans|);
    var event := CompleteEvent(c, |plans|);
    ReadsComplete(c, st, raw);
    ReaderReads(c, event, st, raw);
    EncodingPrintable(event);
    ReadsLastLine(Reader(c), raw, before, st, Encode(event),
                  st.(complete := true, planEnd := Some(|raw|), planSha := Some(c.sha(raw))));
  }

  lemma ReadsLastLine(read: LineReader, raw: string, before: string, st: State, body: string, st': State)
    requires raw == before + (body + ['\n']) && Printable(body) && read(body, st, raw) == Ok(st')
    ensures LoadFrom(read, raw, |before|, st) == Ok(st')
  {
    LastLine(raw, before, body);
    ReadsLine(read, raw, |before|, |raw|, st, body, raw, st');
    NothingLeft(read, raw, st');
  }

  lemma LastLine(raw: string, before: string, body: string)
    requires raw == before + (body + ['\n'])
    ensures raw[|before|..] == body + ['\n'] && raw[..|before| + |body| + 1] == raw && |raw| == |before| + |body| + 1
  {
  }

  lemma NothingLeft(read: LineReader, raw: string, st: State)
    ensures LoadFrom(read, raw, |raw|, st) == Ok(st)
  {
  }

  /** The number of whole plan lines within the first `k` characters. */
  lemma {:induction false} WholeLines(c: Context, plans: seq<Plan>, n: nat, k: nat) returns (m: nat)
    requires n <= |plans| && k <= |PlanLines(c, plans, n)|
    ensures m <= n && |PlanLines(c, plans, m)| <= k
    ensures m < n ==> k < |PlanLines(c, plans, m + 1)|
    ensures PlanLines(c, plans, m) <= PlanLines(c, plans, n)
    ensures m < n ==> PlanLines(c, plans, m + 1) <= PlanLines(c, plans, n)
  {
    if n == 0 || k == |PlanLines(c, plans, n)| {
      m := n;
    } else if k < |PlanLines(c, plans, n - 1)| {
      m := WholeLines(c, plans, n - 1, k);
    } else {
      m := n - 1;
    }
  }

  /** What reading any part of a frozen-plan write gives. */
  ghost predicate LoadsPart(c: Context, plans: seq<Plan>, raw: string, m: nat) {
    && m <= |plans| && PlanLines(c, plans, m) <= raw
    && var done := |PlanLines(c, plans, m)|;
       Load(c, raw) == Ok(State(plans[..m], false, None, None, map[],
                                if done == |raw| then None else Some(raw[done..]),
                                if done == |raw| then None else Some(done), c.sha(raw)))
  }

  /**
   A frozen-plan write cut anywhere loads to the plans whose lines are whole, in
   order, and one torn tail if it was cut inside a line. It counts as complete
   only when nothing is missing.
   */
  lemma EveryPrefixLoads(c: Context, plans: seq<Plan>, k: nat)
    requires Writable(plans) && k <= |FrozenText(c, plans)|
    ensures k < |FrozenText(c, plans)| ==> exists m :: LoadsPart(c, plans, FrozenText(c, plans)[..k], m)
    ensures k == |FrozenText(c, plans)| ==>
              && Load(c, FrozenText(c, plans)[..k]).Ok? && Load(c, FrozenText(c, plans)[..k]).value.complete
              && Load(c, FrozenText(c, plans)[..k]).value.plans == plans
  {
    var text := FrozenText(c, plans);
    var raw, all := text[..k], PlanLines(c, plans, |plans|);
    if k == |text| {
      assert raw == text;
      ReadsFrozenText(c, plans);
    } else {
      var m := CutPoint(c, plans, k);
      ReadsTail(c, raw, plans, m);
      assert LoadsPart(c, plans, raw, m);
    }
  }

  lemma CutPoint(c: Context, plans: seq<Plan>, k: nat) returns (m: nat)
    requires k < |FrozenText(c, plans)|
    ensures m <= |plans| && PlanLines(c, plans, m) <= FrozenText(c, plans)[..k]
    ensures Printable(FrozenText(c, plans)[..k][|PlanLines(c, plans, m)|..])
  {
    var text := FrozenText(c, plans);
    var all := PlanLines(c, plans, |plans|);
    if k >= |all| {
      m := |plans|;
      EncodingPrintable(CompleteEvent(c, |plans|));
      assert text[..k][|all|..] == Line(CompleteEvent(c, |plans|))[..k - |all|];
      Cut(Encode(CompleteEvent(c, |plans|)), k - |all|);
    } else {
      m := WholeLines(c, plans, |plans|, k);
      var done, line := PlanLines(c, plans, m), Line(PlannedEvent(c, plans[m]));
      assert done + line <= all;
      EncodingPrintable(PlannedEvent(c, plans[m]));
      assert text[..k][|done|..] == line[..k - |done|];
      Cut(Encode(PlannedEvent(c, plans[m])), k - |done|);
    }
  }

  lemma Cut(body: string, n: nat)
    requires Printable(body) && n <= |body|
    ensures (body + ['\n'])[..n] == body[..n] && Printable((body + ['\n'])[..n])
  {
    PrintablePart(body, n);
    assert (body + ['\n'])[..n] == body[..n];
  }

  // ---------------------------------------------------------------- cutting a torn tail off

  function Relabel(r: Result<State, string>, sha: Digest): Result<State, string> {
    match r
    case Ok(st) => Ok(st.(manifestSha := sha))
    case Err(e) => Err(e)
  }

  /** A line neither sees nor sets the digest of the whole file or a torn tail. */
  lemma ReadIsLocal(c: Context, j: Json, st: State, upTo: string, sha: Digest)
    ensures Read(c, j, st.(manifestSha := sha), upTo) == Relabel(Read(c, j, st, upTo), sha)
    ensures Read(c, j, st, upTo).Ok? ==>
              Read(c, j, st, upTo).value.torn == st.torn && Read(c, j, st, upTo).value.tornOffset == st.tornOffset
  {
  }

  ghost predicate Local(read: LineReader) {
    forall body: string, st: State, upTo: string, sha: Digest ::
      && read(body, st.(manifestSha := sha), upTo) == Relabel(read(body, st, upTo), sha)
      && (read(body, st, upTo).Ok? ==>
            read(body, st, upTo).value.torn == st.torn && read(body, st, upTo).value.tornOffset == st.tornOffset)
  }

  lemma ReaderIsLocal(c: Context)
    ensures Local(Reader(c))
  {
    forall body: string, st: State, upTo: string, sha: Digest
      ensures Reader(c)(body, st.(manifestSha := sha), upTo) == Relabel(Reader(c)(body, st, upTo), sha)
      ensures Reader(c)(body, st, upTo).Ok? ==>
                && Reader(c)(body, st, upTo).value.torn == st.torn
                && Reader(c)(body, st, upTo).value.tornOffset == st.tornOffset
    {
      if Decode(body).Some? { ReadIsLocal(c, Decode(body).value, st, upTo, sha); }
    }
  }

  lemma {:induction false} SameLineEnd(raw: string, n: nat, i: nat)
    requires i <= n <= |raw| && LineEnd(raw, i) <= n
    ensures LineEnd(raw[..n], i) == LineEnd(raw, i)
    decreases n - i
  {
    if i < n && raw[i] != '\n' && raw[i] != '\r' { SameLineEnd(raw, n, i + 1); }
  }

  /** Without its torn tail a file reads the same, with nothing set aside. */
  lemma {:induction false} CutReadsSame(read: LineReader, raw: string, offset: nat, st: State, end: State, sha: Digest)
    requires Local(read) && offset <= |raw| && st.torn.None? && st.tornOffset.None?
    requires LoadFrom(read, raw, offset, st) == Ok(end) && end.torn.Some?
    ensures end.tornOffset.Some? && offset <= end.tornOffset.value < |raw| && end.torn.value == raw[end.tornOffset.value..]
    ensures LoadFrom(read, raw[..end.tornOffset.value], offset, st.(manifestSha := sha))
         == Ok(end.(torn := None, tornOffset := None, manifestSha := sha))
    ensures raw[|raw| - 1] != '\n'
    decreases |raw| - offset
  {
    var next := LineEnd(raw, offset);
    if raw[next - 1] == '\n' {
      var mid := read(raw[offset..next - 1], st, raw[..next]).value;
      CutReadsSame(read, raw, next, mid, end, sha);
      CutStep(read, raw, end.tornOffset.value, offset, next, st, mid, sha);
    }
  }

  lemma CutStep(read: LineReader, raw: string, n: nat, offset: nat, next: nat, st: State, mid: State, sha: Digest)
    requires Local(read) && offset < next <= n <= |raw| && next == LineEnd(raw, offset) && raw[next - 1] == '\n'
    requires read(raw[offset..next - 1], st, raw[..next]) == Ok(mid)
    ensures LoadFrom(read, raw[..n], offset, st.(manifestSha := sha)) == LoadFrom(read, raw[..n], next, mid.(manifestSha := sha))
  {
    SameLineEnd(raw, n, offset);
    assert raw[..n][offset..next - 1] == raw[offset..next - 1] && raw[..n][..next] == raw[..next];
    WholeLineStep(read, raw[..n], offset, next, st.(manifestSha := sha), raw[offset..next - 1], mid.(manifestSha := sha));
  }

  /** Repairing keeps exactly the complete lines: all that was read is read again, and no tail is left. */
  lemma RepairKeepsCompleteLines(c: Context, raw: string)
    requires Load(c, raw).Ok? && Load(c, raw).value.torn.Some?
    ensures var st := Load(c, raw).value;
            && st.tornOffset.Some? && st.tornOffset.value < |raw| && st.torn.value == raw[st.tornOffset.value..]
            && raw[|raw| - 1] != '\n'
            && var kept := raw[..st.tornOffset.value];
               Load(c, kept) == Ok(st.(torn := None, tornOffset := None, manifestSha := c.sha(kept)))
  {
    var st := Load(c, raw).value;
    ReaderIsLocal(c);
    CutReadsSame(Reader(c), raw, 0, Initial(c.sha(raw)), st, "");
    CutReadsSame(Reader(c), raw, 0, Initial(c.sha(raw)), st, c.sha(raw[..st.tornOffset.value]));
  }

  // ---------------------------------------------------------------- the open file

  datatype Outcome = Done | Crashed | Refused(code: string)

  class Manifest {
    const c: Context
    /** The file on disk. */
    var content: string
    var state: State

    /** What is in memory is what a reload would read. */
    ghost predicate Valid()
      reads this
    {
      Load(c, content) == Ok(state)
    }

    constructor (c: Context)
      ensures this.c == c && content == "" && Valid()
    {
      this.c := c;
      content, state := "", Initial(c.sha(""));
    }

    /** Read the file from its beginning. */
    method LoadState() returns (r: Result<State, string>)
      ensures r == Load(c, content)
    {
      var st, offset, read := Initial(c.sha(content)), 0, Reader(c);
      while offset < |content|
        invariant 0 <= offset <= |content| && LoadFrom(read, content, offset, st) == Load(c, content)
        decreases |content| - offset
      {
        var next := LineEnd(content, offset);
        if content[next - 1] != '\n' {
          if next < |content| {
            return Err(INVALID);
          }
          return Ok(st.(torn := Some(content[offset..]), tornOffset := Some(offset)));
        }
        var event := read(content[offset..next - 1], st, content[..next]);
        if event.Err? {
          return event;
        }
        st, offset := event.value, next;
      }
      return Ok(st);
    }

    /** Append a line; only `budget` characters get to the disk before a crash. */
    method WriteLine(line: string, budget: nat) returns (crashed: bool, left: nat)
      modifies this`content
      ensures crashed <==> budget < |line|
      ensures content == old(content) + (if crashed then line[..budget] else line)
      ensures left == if crashed then 0 else budget - |line|
    {
      crashed := budget < |line|;
      content := content + if crashed then line[..budget] else line;
      left := if crashed then 0 else budget - |line|;
    }

    /**
     Write all plans and the completion marker, keeping the state up to date on
     the way. What is then in memory agrees with a reload.
     */
    method WriteFrozenPlan(plans: seq<Plan>, budget: nat) returns (out: Outcome)
      requires Valid() && forall i :: 0 <= i < |plans| ==> FrozenPlan(plans[i])
      modifies this
      ensures old(content) != "" ==> out == Refused(RESET_FORBIDDEN) && content == old(content) && state == old(state)
      ensures old(content) == "" && Writable(plans) ==>
                out == if budget < |FrozenText(c, plans)| then Crashed else Done
      ensures out.Done? ==> Writable(plans) && content == FrozenText(c, plans) && Valid() && state.complete && state.plans == plans
      ensures out.Crashed? ==> budget < |FrozenText(c, plans)| && content == FrozenText(c, plans)[..budget]
    {
      if content != "" {
        return Refused(RESET_FORBIDDEN);
      }
      var left;
      out, left := WritePlanLines(plans, budget);
      if !out.Done? {
        return;
      }
      var crashed;
      crashed, left := WriteLine(Line(CompleteEvent(c, |plans|)), left);
      if crashed {
        return Crashed;
      }
      ReadsFrozenText(c, plans);
      var digest := c.sha(content);
      state := State(plans, true, Some(|content|), Some(digest), map[], None, None, digest);
      return Done;
    }

    /** One line for each plan, unless a plan is malformed or repeats an image. */
    method WritePlanLines(plans: seq<Plan>, budget: nat) returns (out: Outcome, left: nat)
      requires content == "" && forall i :: 0 <= i < |plans| ==> FrozenPlan(plans[i])
      modifies this`content
      ensures Writable(plans) ==> !out.Refused?
      ensures out.Done? ==>
                Writable(plans) && content == PlanLines(c, plans, |plans|) && budget == |content| + left
      ensures out.Crashed? ==> budget < |PlanLines(c, plans, |plans|)| && content == FrozenText(c, plans)[..budget]
    {
      left := budget;
      for i := 0 to |plans|
        invariant content == PlanLines(c, plans, i) && Writable(plans[..i]) && budget == |content| + left
      {
        var p := plans[i];
        if !ValidPlan(p) {
          return Refused(INVALID), left;
        }
        if HasImage(plans[..i], p.image) {
          NotWritable(plans, i);
          return Refused(PLAN_MISMATCH), left;
        }
        StillWritable(plans, i);
        var crashed;
        crashed, left := WriteLine(Line(PlannedEvent(c, p)), left);
        if crashed {
          PartOfText(c, plans, i, budget);
          LinesArePrefix(c, plans, i + 1, |plans|);
          return Crashed, 0;
        }
      }
      assert plans[..|plans|] == plans;
      return Done, left;
    }

    /** Set the torn tail aside and cut it off. */
    method RepairTornTail() returns (quarantined: Option<string>)
      requires Valid()
      modifies this
      ensures Valid() && state.torn.None?
      ensures old(state).torn.None? ==> quarantined.None? && content == old(content)
      ensures old(state).torn.Some? ==> quarantined.Some? && old(content) == content + quarantined.value
      ensures state.plans == old(state).plans && state.results == old(state).results && state.complete == old(state).complete
    {
      if state.torn.None? {
        return None;
      }
      RepairKeepsCompleteLines(c, content);
      quarantined := state.torn;
      content := content[..state.tornOffset.value];
      var reloaded := LoadState();
      state := reloaded.value;
    }
  }

  lemma NotWritable(plans: seq<Plan>, i: nat)
    requires i < |plans| && HasImage(plans[..i], plans[i].image)
    ensures !Writable(plans)
  {
    var k :| 0 <= k < i && plans[..i][k].image == plans[i].image;
  }

  lemma StillWritable(plans: seq<Plan>, i: nat)
    requires i < |plans| && Writable(plans[..i]) && ValidPlan(plans[i]) && FrozenPlan(plans[i])
    requires !HasImage(plans[..i], plans[i].image)
    ensures Writable(plans[..i + 1])
  {
    forall k | 0 <= k < i ensures plans[..i + 1][k] == plans[..i][k] && plans[k].image != plans[i].image {
      assert plans[..i][k] == plans[k];
    }
  }

  /** A line written in part is part of the whole text. */
  lemma PartOfText(c: Context, plans: seq<Plan>, i: nat, k: nat)
    requires i < |plans| && |PlanLines(c, plans, i)| <= k < |PlanLines(c, plans, i + 1)|
    ensures k < |FrozenText(c, plans)|
    ensures FrozenText(c, plans)[..k]
         == PlanLines(c, plans, i) + Line(PlannedEvent(c, plans[i]))[..k - |PlanLines(c, plans, i)|]
  {
    LinesArePrefix(c, plans, i + 1, |plans|);
    var next := PlanLines(c, plans, i + 1);
    assert FrozenText(c, plans)[..k] == next[..k];
  }

  lemma {:induction false} LinesArePrefix(c: Context, plans: seq<Plan>, m: nat, n: nat)
    requires m <= n <= |plans|
    ensures PlanLines(c, plans, m) <= PlanLines(c, plans, n)
    decreases n - m
  {
    if m < n { LinesArePrefix(c, plans, m, n - 1); }
  }
}
