/** One result per image, appended to a complete manifest: what a reload then reads, and when it reads nothing any more. */
module ManifestResults {
  import opened Json
  import opened ManifestLog
  import opened Wrappers

  const PLAN_INCOMPLETE := "media_asset_plan_incomplete"

  const RESULT_EVENTS: set<string> := {"registered", "skipped", "already_registered", "recovered_registered"}

  const RESULT_KEYS: seq<string> := ["event", "format_version", "image_id", "plan_sha256", "run_id", "target_signature"]
  const SKIPPED_KEYS: seq<string> :=
    ["event", "format_version", "image_id", "plan_sha256", "reason_code", "run_id", "target_signature"]

  /** A result as it is asked for: only a skipped image has a reason. */
  predicate ResultOk(name: string, reason: Option<string>) {
    && name in RESULT_EVENTS
    && (if name == "skipped" then reason.Some? && reason.value != "" else reason.None?)
  }

  function SkippedValues(c: Context, image: int, sha: Digest, why: string): seq<Json> {
    [Str("skipped"), Int(2), Int(image), Str(sha), Str(why), Str(c.run), Str(TARGET)]
  }

  /** A reason makes it a skipped image. */
  function ResultEvent(c: Context, name: string, image: int, sha: Digest, reason: Option<string>): Json {
    match reason
    case None => Dict(Build(RESULT_KEYS, [Str(name), Int(2), Int(image), Str(sha), Str(c.run), Str(TARGET)]))
    case Some(why) =>
      Dict(Build(SKIPPED_KEYS, SkippedValues(c, image, sha, why)))
  }

  /** The image is planned and has no result yet. */
  predicate Awaited(st: State, image: int) {
    HasImage(st.plans, Int(image)) && image !in st.results
  }

  lemma ResultKeysDistinct()
    ensures Distinct(RESULT_KEYS) && Distinct(SKIPPED_KEYS)
  {
  }

  lemma Results(fs: Fields, st: State, name: string, image: int, sha: Digest)
    requires st.complete && st.planSha == Some(sha) && Get(fs, "image_id") == Some(Int(image))
    requires Get(fs, "plan_sha256") == Some(Str(sha))
    requires name == "skipped" ==>
               Get(fs, "reason_code").Some? && Get(fs, "reason_code").value.Str? && Get(fs, "reason_code").value.s != ""
    ensures if Awaited(st, image) then Resulted(fs, name, st) == Ok(st.(results := st.results[image := name]))
            else Resulted(fs, name, st).Err?
  {
  }

  lemma ReadsAsResult(c: Context, fs: Fields, st: State, name: string, upTo: string)
    requires name in RESULT_EVENTS && Get(fs, "event") == Some(Str(name)) && Get(fs, "format_version") == Some(Int(2))
    requires Get(fs, "run_id") == Some(Str(c.run)) && Get(fs, "target_signature") == Some(Str(TARGET))
    ensures Read(c, Dict(fs), st, upTo) == Resulted(fs, name, st)
  {
  }

  lemma PlainResult(c: Context, st: State, name: string, image: int, sha: Digest, upTo: string)
    requires ResultOk(name, None)
    ensures Read(c, AsLists(ResultEvent(c, name, image, sha, None)), st, upTo)
         == Resulted(Build(RESULT_KEYS, AllAsLists([Str(name), Int(2), Int(image), Str(sha), Str(c.run), Str(TARGET)])), name, st)
    ensures var fs := Build(RESULT_KEYS, AllAsLists([Str(name), Int(2), Int(image), Str(sha), Str(c.run), Str(TARGET)]));
            Get(fs, "image_id") == Some(Int(image)) && Get(fs, "plan_sha256") == Some(Str(sha))
  {
    hide Read, Resulted, Get, Build;
    var vs := [Str(name), Int(2), Int(image), Str(sha), Str(c.run), Str(TARGET)];
    ResultKeysDistinct();
    BuildAsLists(RESULT_KEYS, vs);
    GetBuilt(RESULT_KEYS, AllAsLists(vs));
    var fs := Build(RESULT_KEYS, AllAsLists(vs));
    assert Get(fs, RESULT_KEYS[0]) == Some(Str(name)) && Get(fs, RESULT_KEYS[1]) == Some(Int(2));
    assert Get(fs, RESULT_KEYS[2]) == Some(Int(image)) && Get(fs, RESULT_KEYS[3]) == Some(Str(sha));
    assert Get(fs, RESULT_KEYS[4]) == Some(Str(c.run)) && Get(fs, RESULT_KEYS[5]) == Some(Str(TARGET));
    ReadsAsResult(c, fs, st, name, upTo);
  }

  lemma SkippedResult(c: Context, st: State, image: int, sha: Digest, why: string, upTo: string)
    ensures Read(c, AsLists(ResultEvent(c, "skipped", image, sha, Some(why))), st, upTo)
         == Resulted(Build(SKIPPED_KEYS, AllAsLists(SkippedValues(c, image, sha, why))), "skipped", st)
    ensures var fs := Build(SKIPPED_KEYS, AllAsLists(SkippedValues(c, image, sha, why)));
            && Get(fs, "image_id") == Some(Int(image)) && Get(fs, "plan_sha256") == Some(Str(sha))
            && Get(fs, "reason_code") == Some(Str(why))
  {
    hide Read, Resulted, Get, Build;
    var vs := SkippedValues(c, image, sha, why);
    ResultKeysDistinct();
    BuildAsLists(SKIPPED_KEYS, vs);
    GetBuilt(SKIPPED_KEYS, AllAsLists(vs));
    var fs := Build(SKIPPED_KEYS, AllAsLists(vs));
    assert Get(fs, SKIPPED_KEYS[0]) == Some(Str("skipped")) && Get(fs, SKIPPED_KEYS[1]) == Some(Int(2));
    assert Get(fs, SKIPPED_KEYS[2]) == Some(Int(image)) && Get(fs, SKIPPED_KEYS[3]) == Some(Str(sha));
    assert Get(fs, SKIPPED_KEYS[4]) == Some(Str(why));
    assert Get(fs, SKIPPED_KEYS[5]) == Some(Str(c.run)) && Get(fs, SKIPPED_KEYS[6]) == Some(Str(TARGET));
    ReadsAsResult(c, fs, st, "skipped", upTo);
  }

  /** A written result is read back exactly for an awaited image. */
  lemma ReadsResult(c: Context, st: State, name: string, image: int, sha: Digest, reason: Option<string>, upTo: string)
    requires ResultOk(name, reason) && st.complete && st.planSha == Some(sha)
    ensures var r := Read(c, AsLists(ResultEvent(c, name, image, sha, reason)), st, upTo);
            if Awaited(st, image) then r == Ok(st.(results := st.results[image := name])) else r.Err?
  {
    match reason
    case None =>
      PlainResult(c, st, name, image, sha, upTo);
      Results(Build(RESULT_KEYS, AllAsLists([Str(name), Int(2), Int(image), Str(sha), Str(c.run), Str(TARGET)])),
              st, name, image, sha);
    case Some(why) =>
      SkippedResult(c, st, image, sha, why, upTo);
      Results(Build(SKIPPED_KEYS, AllAsLists(SkippedValues(c, image, sha, why))), st, name, image, sha);
  }

  // ---------------------------------------------------------------- one more line

  lemma {:induction false} LongerLineEnd(raw: string, more: string, i: nat)
    requires i < |raw| && raw[LineEnd(raw, i) - 1] == '\n'
    ensures LineEnd(raw + more, i) == LineEnd(raw, i)
    decreases |raw| - i
  {
    if raw[i] != '\n' && raw[i] != '\r' { LongerLineEnd(raw, more, i + 1); }
  }

  /** Whatever follows it, a file without a torn tail is read as before. */
  lemma {:induction false} LongerReadsSame(read: LineReader, raw: string, more: string, offset: nat, st: State, end: State, sha: Digest)
    requires Local(read) && offset <= |raw| && st.torn.None?
    requires LoadFrom(read, raw, offset, st) == Ok(end) && end.torn.None?
    ensures LoadFrom(read, raw + more, offset, st.(manifestSha := sha))
         == LoadFrom(read, raw + more, |raw|, end.(manifestSha := sha))
    decreases |raw| - offset
  {
    if offset < |raw| {
      var next, all := LineEnd(raw, offset), raw + more;
      LongerLineEnd(raw, more, offset);
      var mid := read(raw[offset..next - 1], st, raw[..next]).value;
      assert all[offset..next - 1] == raw[offset..next - 1] && all[..next] == raw[..next];
      WholeLineStep(read, all, offset, next, st.(manifestSha := sha), raw[offset..next - 1], mid.(manifestSha := sha));
      LongerReadsSame(read, raw, more, next, mid, end, sha);
    }
  }

  lemma FailsLastLine(read: LineReader, raw: string, before: string, st: State, body: string)
    requires raw == before + (body + ['\n']) && Printable(body) && read(body, st, raw).Err?
    ensures LoadFrom(read, raw, |before|, st).Err?
  {
    LastLine(raw, before, body);
    LineFound(raw, |before|, body);
    BadLine(read, raw, |before|, st, body);
  }

  lemma BadLine(read: LineReader, raw: string, offset: nat, st: State, body: string)
    requires offset < |raw| == LineEnd(raw, offset) && raw[|raw| - 1] == '\n'
    requires raw[offset..|raw| - 1] == body && read(body, st, raw).Err?
    ensures LoadFrom(read, raw, offset, st).Err?
  {
    assert raw[..|raw|] == raw;
  }

  /** A state that is complete has the digest of its plan. */
  predicate Sealed(st: State) {
    st.complete ==> st.planSha.Some?
  }

  lemma ReadKeepsSealed(c: Context, j: Json, st: State, upTo: string)
    requires Sealed(st) && Read(c, j, st, upTo).Ok?
    ensures Sealed(Read(c, j, st, upTo).value)
  {
  }

  ghost predicate KeepsSealed(read: LineReader) {
    forall body: string, st: State, upTo: string :: Sealed(st) && read(body, st, upTo).Ok? ==> Sealed(read(body, st, upTo).value)
  }

  lemma ReaderKeepsSealed(c: Context)
    ensures KeepsSealed(Reader(c))
  {
    forall body: string, st: State, upTo: string | Sealed(st) && Reader(c)(body, st, upTo).Ok?
      ensures Sealed(Reader(c)(body, st, upTo).value)
    {
      ReadKeepsSealed(c, Decode(body).value, st, upTo);
    }
  }

  lemma {:induction false} LoadedIsSealed(read: LineReader, raw: string, offset: nat, st: State)
    requires KeepsSealed(read) && offset <= |raw| && Sealed(st) && LoadFrom(read, raw, offset, st).Ok?
    ensures Sealed(LoadFrom(read, raw, offset, st).value)
    decreases |raw| - offset
  {
    if offset < |raw| && raw[LineEnd(raw, offset) - 1] == '\n' {
      var next := LineEnd(raw, offset);
      LoadedIsSealed(read, raw, next, read(raw[offset..next - 1], st, raw[..next]).value);
    }
  }

  /** Reading one more line after a whole file. */
  lemma OneMoreLine(c: Context, raw: string, j: Json)
    requires Load(c, raw).Ok? && Load(c, raw).value.torn.None?
    ensures var all, st := raw + Line(j), Load(c, raw).value;
            var r := Read(c, AsLists(j), st, all);
            (r.Ok? ==> Load(c, all) == Ok(r.value.(manifestSha := c.sha(all)))) && (r.Err? ==> Load(c, all).Err?)
  {
    var all, st := raw + Line(j), Load(c, raw).value;
    var sha := c.sha(all);
    ReaderIsLocal(c);
    LongerReadsSame(Reader(c), raw, Line(j), 0, Initial(c.sha(raw)), st, sha);
    EncodingPrintable(j);
    ReaderReads(c, j, st.(manifestSha := sha), all);
    ReadIsLocal(c, AsLists(j), st, all, sha);
    var r := Read(c, AsLists(j), st, all);
    if r.Ok? {
      ReadsLastLine(Reader(c), all, raw, st.(manifestSha := sha), Encode(j), r.value.(manifestSha := sha));
    } else {
      FailsLastLine(Reader(c), all, raw, st.(manifestSha := sha), Encode(j));
    }
  }

  // ---------------------------------------------------------------- recording

  /**
   Append a result and read the file again. For an awaited image the new state is
   the old one with this result, and it is what a reload gives. For any other
   image the line is written all the same, and then nothing reads the file any more.
   */
  method RecordResult(m: Manifest, name: string, image: int, reason: Option<string>, budget: nat) returns (out: Outcome)
    requires m.Valid()
    modifies m
    ensures !old(m.state).complete || old(m.state).torn.Some? || !ResultOk(name, reason) ==>
              out.Refused? && m.content == old(m.content) && m.state == old(m.state)
    ensures out.Done? ==>
              && m.Valid() && old(m.content) <= m.content
              && m.state == old(m.state).(results := old(m.state).results[image := name], manifestSha := m.c.sha(m.content))
    ensures out.Crashed? ==> old(m.content) <= m.content
    ensures old(m.state).complete && old(m.state).torn.None? && ResultOk(name, reason) && !out.Crashed? ==>
              && (out.Done? <==> Awaited(old(m.state), image))
              && (out.Refused? ==> Load(m.c, m.content).Err?)
  {
    if name !in RESULT_EVENTS {
      return Refused(INVALID);
    }
    if !m.state.complete {
      return Refused(PLAN_INCOMPLETE);
    }
    if m.state.torn.Some? {
      return Refused(TORN);
    }
    if !ResultOk(name, reason) {
      return Refused(INVALID);
    }
    ReaderKeepsSealed(m.c);
    LoadedIsSealed(Reader(m.c), m.content, 0, Initial(m.c.sha(m.content)));
    var sha := m.state.planSha.value;
    var event := ResultEvent(m.c, name, image, sha, reason);
    OneMoreLine(m.c, m.content, event);
    ReadsResult(m.c, m.state, name, image, sha, reason, m.content + Line(event));
    var crashed, left := m.WriteLine(Line(event), budget);
    if crashed {
      return Crashed;
    }
    var loaded := m.LoadState();
    match loaded
    case Err(code) => return Refused(code);
    case Ok(st) =>
      m.state := st;
      return Done;
  }
}
