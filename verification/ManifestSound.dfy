/** What holds of every manifest that can be read, and which well-formed lines are refused. */
module ManifestSound {
  import opened Json
  import opened ManifestLog
  import opened ManifestResults
  import opened Wrappers

  /** A line ends after its first line feed or carriage return, or after both when one follows the other in this order. */
  lemma {:induction false} LineEndMeans(raw: string, i: nat) returns (k: nat)
    requires i <= |raw|
    ensures i <= k <= |raw| && forall m :: i <= m < k ==> raw[m] != '\n' && raw[m] != '\r'
    ensures if k == |raw| then LineEnd(raw, i) == k
            else if raw[k] == '\n' then LineEnd(raw, i) == k + 1
            else raw[k] == '\r' && LineEnd(raw, i) == if k + 1 < |raw| && raw[k + 1] == '\n' then k + 2 else k + 1
    decreases |raw| - i
  {
    k := i;
    if i < |raw| && raw[i] != '\n' && raw[i] != '\r' {
      k := LineEndMeans(raw, i + 1);
    }
  }

  predicate IsDigest(j: Json) {
    j.Str? && |j.s| == 64 && forall i :: 0 <= i < 64 ==> '0' <= j.s[i] <= '9' || 'a' <= j.s[i] <= 'f'
  }

  /** An image to register has one owner and a digest; any other has a reason and neither. */
  ghost predicate WellFormed(p: Plan) {
    && p.image.Int? && p.image.n > 0
    && (if p.reason == Null
        then p.submitter.Int? && p.submitter.n > 0 && p.owners == Tuple(Item(p.submitter, End)) && IsDigest(p.sha)
        else p.reason.Str? && p.submitter == Null && p.sha == Null)
  }

  lemma ValidIsWellFormed(p: Plan)
    requires ValidPlan(p)
    ensures WellFormed(p)
  {
    if p.reason == Null {
      forall i | 0 <= i < 64 ensures '0' <= p.sha.s[i] <= '9' || 'a' <= p.sha.s[i] <= 'f' {
        assert p.sha.s[i] in p.sha.s;
        HexDigits(p.sha.s[i]);
      }
    }
  }

  lemma HexDigits(ch: char)
    ensures ch in "0123456789abcdef" ==> '0' <= ch <= '9' || 'a' <= ch <= 'f'
  {
  }

  ghost predicate SoundPlans(plans: seq<Plan>) {
    && (forall i :: 0 <= i < |plans| ==> WellFormed(plans[i]))
    && (forall i, j :: 0 <= i < j < |plans| ==> plans[i].image != plans[j].image)
  }

  /** The plan ends with a whole line of the file, and its digest is that of the file up to there. */
  ghost predicate SealedAt(c: Context, raw: string, st: State) {
    && st.planEnd.Some? && st.planSha.Some? && 0 < st.planEnd.value <= |raw| && raw[st.planEnd.value - 1] == '\n'
    && st.planSha.value == c.sha(raw[..st.planEnd.value])
  }

  /** Results follow the complete plan, for planned images only. */
  ghost predicate SoundResults(st: State) {
    && (st.results != map[] ==> st.complete)
    && (forall n :: n in st.results ==>
          HasImage(st.plans, Int(n)) && st.results[n] in {"registered", "skipped", "already_registered", "recovered_registered"})
  }

  ghost predicate Sound(c: Context, raw: string, st: State) {
    && SoundPlans(st.plans) && SoundResults(st)
    && (if st.complete then SealedAt(c, raw, st) else st.planEnd.None? && st.planSha.None?)
  }

  lemma PlannedKeepsSound(c: Context, raw: string, fs: Fields, st: State)
    requires Sound(c, raw, st) && Planned(fs, st).Ok?
    ensures Sound(c, raw, Planned(fs, st).value)
  {
    var p := FromDict(Get(fs, "plan").value).value;
    ValidIsWellFormed(p);
    var plans := st.plans + [p];
    assert forall i :: 0 <= i < |st.plans| ==> plans[i] == st.plans[i] && st.plans[i].image != p.image;
  }

  lemma CompletedKeepsSound(c: Context, raw: string, fs: Fields, st: State, n: nat)
    requires Sound(c, raw, st) && 0 < n <= |raw| && raw[n - 1] == '\n' && Completed(c, fs, st, raw[..n]).Ok?
    ensures Sound(c, raw, Completed(c, fs, st, raw[..n]).value)
  {
  }

  lemma ResultedKeepsSound(c: Context, raw: string, fs: Fields, name: string, st: State)
    requires Sound(c, raw, st) && Resulted(fs, name, st).Ok?
    requires name in {"registered", "skipped", "already_registered", "recovered_registered"}
    ensures Sound(c, raw, Resulted(fs, name, st).value)
  {
  }

  lemma ReadKeepsSound(c: Context, raw: string, j: Json, st: State, n: nat)
    requires Sound(c, raw, st) && 0 < n <= |raw| && raw[n - 1] == '\n' && Read(c, j, st, raw[..n]).Ok?
    ensures Sound(c, raw, Read(c, j, st, raw[..n]).value)
  {
    hide Sound, Planned, Completed, Resulted, Fault;
    var name := Get(j.fields, "event").value.s;
    if name == "planned" {
      PlannedKeepsSound(c, raw, j.fields, st);
    } else if name == "plan_complete" {
      CompletedKeepsSound(c, raw, j.fields, st, n);
    } else {
      ResultedKeepsSound(c, raw, j.fields, name, st);
    }
  }

  ghost predicate KeepsSound(c: Context, raw: string, read: LineReader) {
    forall body: string, st: State, n: nat ::
      Sound(c, raw, st) && 0 < n <= |raw| && raw[n - 1] == '\n' && read(body, st, raw[..n]).Ok? ==>
        Sound(c, raw, read(body, st, raw[..n]).value)
  }

  lemma ReaderKeepsSound(c: Context, raw: string)
    ensures KeepsSound(c, raw, Reader(c))
  {
    hide Sound;
    forall body: string, st: State, n: nat
      | Sound(c, raw, st) && 0 < n <= |raw| && raw[n - 1] == '\n' && Reader(c)(body, st, raw[..n]).Ok?
      ensures Sound(c, raw, Reader(c)(body, st, raw[..n]).value)
    {
      ReadKeepsSound(c, raw, Decode(body).value, st, n);
    }
  }

  lemma {:induction false} LoadKeepsSound(c: Context, read: LineReader, raw: string, offset: nat, st: State)
    requires KeepsSound(c, raw, read) && offset <= |raw| && Sound(c, raw, st) && LoadFrom(read, raw, offset, st).Ok?
    ensures Sound(c, raw, LoadFrom(read, raw, offset, st).value)
    decreases |raw| - offset
  {
    if offset < |raw| && raw[LineEnd(raw, offset) - 1] == '\n' {
      var next := LineEnd(raw, offset);
      LoadKeepsSound(c, read, raw, next, read(raw[offset..next - 1], st, raw[..next]).value);
    }
  }

  /**
   Whatever the file, if it can be read: no image is planned twice and each plan
   is well formed; results come only after the plan is complete and for planned
   images; and the digest of the plan is that of the file up to its end.
   */
  lemma LoadedIsSound(c: Context, raw: string)
    requires Load(c, raw).Ok?
    ensures Sound(c, raw, Load(c, raw).value) && Load(c, raw).value.manifestSha == c.sha(raw)
  {
    ReaderKeepsSound(c, raw);
    LoadKeepsSound(c, Reader(c), raw, 0, Initial(c.sha(raw)));
    ReaderIsLocal(c);
    KeepsFileDigest(Reader(c), raw, 0, Initial(c.sha(raw)));
  }

  lemma {:induction false} KeepsFileDigest(read: LineReader, raw: string, offset: nat, st: State)
    requires Local(read) && offset <= |raw| && LoadFrom(read, raw, offset, st).Ok?
    ensures LoadFrom(read, raw, offset, st).value.manifestSha == st.manifestSha
    decreases |raw| - offset
  {
    if offset < |raw| && raw[LineEnd(raw, offset) - 1] == '\n' {
      var next := LineEnd(raw, offset);
      var body, upTo := raw[offset..next - 1], raw[..next];
      assert st.(manifestSha := st.manifestSha) == st;
      assert read(body, st.(manifestSha := st.manifestSha), upTo) == Relabel(read(body, st, upTo), st.manifestSha);
      KeepsFileDigest(read, raw, next, read(body, st, upTo).value);
    }
  }

  // ---------------------------------------------------------------- what is refused

  lemma FailsLine(read: LineReader, raw: string, st: State, body: string, e: string)
    requires Printable(body) && body + ['\n'] <= raw && read(body, st, raw[..|body| + 1]) == Err(e)
    ensures LoadFrom(read, raw, 0, st) == Err(e)
  {
    assert raw[0..] == raw;
    LineFound(raw, 0, body);
  }

  lemma ForeignPlan(c: Context, d: Context, p: Plan, st: State, upTo: string)
    requires c.run != d.run
    ensures Read(d, AsLists(PlannedEvent(c, p)), st, upTo) == Err(RUN_MISMATCH)
  {
    var vs := [Str("planned"), Int(2), AsDict(p), Str(c.run), Str(TARGET)];
    BuildAsLists(PLANNED_KEYS, vs);
    EventKeysDistinct();
    GetBuilt(PLANNED_KEYS, AllAsLists(vs));
    var fs := Build(PLANNED_KEYS, AllAsLists(vs));
    assert Get(fs, PLANNED_KEYS[1]) == Some(Int(2));
    assert Get(fs, PLANNED_KEYS[3]) == Some(Str(c.run)) && Get(fs, PLANNED_KEYS[4]) == Some(Str(TARGET));
  }

  lemma ForeignEnd(c: Context, d: Context, scanned: nat, st: State, upTo: string)
    requires c.run != d.run
    ensures Read(d, AsLists(CompleteEvent(c, scanned)), st, upTo) == Err(RUN_MISMATCH)
  {
    var vs := [Str("plan_complete"), Int(2), Str(c.run), Int(scanned), Str(TARGET)];
    BuildAsLists(COMPLETE_KEYS, vs);
    EventKeysDistinct();
    GetBuilt(COMPLETE_KEYS, AllAsLists(vs));
    var fs := Build(COMPLETE_KEYS, AllAsLists(vs));
    assert Get(fs, COMPLETE_KEYS[1]) == Some(Int(2));
    assert Get(fs, COMPLETE_KEYS[2]) == Some(Str(c.run)) && Get(fs, COMPLETE_KEYS[4]) == Some(Str(TARGET));
  }

  /** A manifest that another run has written is refused, whatever it plans. */
  lemma OtherRunRefused(c: Context, d: Context, plans: seq<Plan>)
    requires c.run != d.run
    ensures Load(d, FrozenText(c, plans)) == Err(RUN_MISMATCH)
  {
    var raw := FrozenText(c, plans);
    var st := Initial(d.sha(raw));
    var j := if plans == [] then CompleteEvent(c, 0) else PlannedEvent(c, plans[0]);
    EncodingPrintable(j);
    assert Line(j) <= raw by {
      if plans != [] {
        LinesArePrefix(c, plans, 1, |plans|);
        assert PlanLines(c, plans, 1) == PlanLines(c, plans, 0) + Line(j);
      }
    }
    var upTo := raw[..|Encode(j)| + 1];
    ReaderReads(d, j, st, upTo);
    if plans == [] {
      ForeignEnd(c, d, 0, st, upTo);
    } else {
      ForeignPlan(c, d, plans[0], st, upTo);
    }
    FailsLine(Reader(d), raw, st, Encode(j), RUN_MISMATCH);
  }

  /** A completion marker that counts other than the plans before it is refused. */
  lemma WrongCountRefused(c: Context, plans: seq<Plan>, scanned: nat)
    requires Writable(plans) && scanned != |plans|
    ensures Load(c, PlanLines(c, plans, |plans|) + Line(CompleteEvent(c, scanned))).Err?
  {
    var before, event := PlanLines(c, plans, |plans|), CompleteEvent(c, scanned);
    var raw := before + Line(event);
    var st := Reading(c, raw, plans, |plans|);
    ReadsPlanLines(c, raw, plans, |plans|);
    WrongCount(c, scanned, st, raw);
    ReaderReads(c, event, st, raw);
    EncodingPrintable(event);
    FailsLastLine(Reader(c), raw, before, st, Encode(event));
  }

  lemma WrongCount(c: Context, scanned: nat, st: State, upTo: string)
    requires !st.complete && scanned != |st.plans|
    ensures Read(c, AsLists(CompleteEvent(c, scanned)), st, upTo) == Err(PLAN_MISMATCH)
  {
    var vs := [Str("plan_complete"), Int(2), Str(c.run), Int(scanned), Str(TARGET)];
    BuildAsLists(COMPLETE_KEYS, vs);
    EventKeysDistinct();
    GetBuilt(COMPLETE_KEYS, AllAsLists(vs));
    var fs := Build(COMPLETE_KEYS, AllAsLists(vs));
    assert Get(fs, COMPLETE_KEYS[0]) == Some(Str("plan_complete")) && Get(fs, COMPLETE_KEYS[1]) == Some(Int(2));
    assert Get(fs, COMPLETE_KEYS[2]) == Some(Str(c.run)) && Get(fs, COMPLETE_KEYS[3]) == Some(Int(scanned));
    assert Get(fs, COMPLETE_KEYS[4]) == Some(Str(TARGET));
  }

  /** A result that names the digest of another plan is refused. */
  lemma OtherPlanRefused(c: Context, st: State, name: string, image: int, sha: Digest, reason: Option<string>, upTo: string)
    requires ResultOk(name, reason) && st.complete && st.planSha != Some(sha)
    ensures Read(c, AsLists(ResultEvent(c, name, image, sha, reason)), st, upTo) == Err(PLAN_MISMATCH)
  {
    match reason
    case None => PlainResult(c, st, name, image, sha, upTo);
    case Some(why) => SkippedResult(c, st, image, sha, why, upTo);
  }
}
