/**
  services/connector-github: the best-effort enrichment stage, and why it cannot
  change what a delivery means outside the five enriched fields.
 */
module Enrichment {
  import opened Prelude
  import opened Json
  import opened Connector
  import opened GitHubSource
  import opened Kafka
  import opened Payloads

  /** githubapp.PullRequestEnrichment. */
  datatype Detail = Detail(
    additions: Int64, deletions: Int64, changedFiles: Int64, commitOids: seq<string>, files: seq<FileChange>)

  /** What one call to EnrichPullRequest came back with. */
  datatype Answer = Fetched(detail: Detail) | RateLimited(retryAfter: int) | CallFailed

  /** Everything outside the process that decides how one delivery is enriched. */
  datatype World = World(
    credentials: bool,                  // false: pass-through mode
    first: Answer,
    slept: bool,                        // the short wait was not cancelled
    second: Answer,
    fetchPatches: bool,
    patches: Option<seq<FileChange>>)   // None: the REST call failed

  const MAX_ENRICH_WAIT: int := 30_000_000_000

  // ---- encoding ----

  function EncodeString(s: string): Json { Str(s, None) }

  function EncodeStrings(ss: seq<string>): seq<Json> {
    if ss == [] then [] else [EncodeString(ss[0])] + EncodeStrings(ss[1..])
  }

  function EncodeFile(f: FileChange): Json {
    var base := map["path" := EncodeString(f.path), "additions" := Int(f.additions), "deletions" := Int(f.deletions)];
    var patched := if f.patch == "" then base else base["patch" := EncodeString(f.patch)];
    Obj(if f.truncated then patched["truncated" := Bool(true)] else patched)
  }

  function EncodeFiles(fs: seq<FileChange>): seq<Json> {
    if fs == [] then [] else [EncodeFile(fs[0])] + EncodeFiles(fs[1..])
  }

  /** json.Marshal of a slice; a slice nothing was appended to is nil and renders as null. */
  function EncodeSlice(items: seq<Json>): Json {
    if items == [] then Null else Arr(items)
  }

  function EncodeDetail(d: Detail): Json {
    Obj(map["additions" := Int(d.additions), "deletions" := Int(d.deletions), "changed_files" := Int(d.changedFiles),
            "commit_oids" := EncodeSlice(EncodeStrings(d.commitOids)), "files" := EncodeSlice(EncodeFiles(d.files))])
  }

  function BlockOf(d: Detail): EnrichmentBlock {
    EnrichmentBlock(Some(d.additions), Some(d.deletions), Some(d.changedFiles), d.commitOids, d.files)
  }

  lemma {:induction false} StringsRoundTrip(ss: seq<string>)
    ensures AsStrings(EncodeStrings(ss)) == Ok(ss)
  {
    if ss != [] {
      StringsRoundTrip(ss[1..]);
      assert [ss[0]] + ss[1..] == ss;
    }
  }

  lemma FileRoundTrip(f: FileChange)
    ensures DecodeFile(EncodeFile(f)) == Ok(f)
  {
  }

  lemma {:induction false} FilesRoundTrip(fs: seq<FileChange>)
    ensures DecodeFiles(EncodeFiles(fs)) == Ok(fs)
  {
    if fs != [] {
      FilesRoundTrip(fs[1..]);
      hide EncodeFile, DecodeFile;
      FileRoundTrip(fs[0]);
      assert [fs[0]] + fs[1..] == fs;
    }
  }

  /** What the enricher writes is exactly what the normalizer reads back. */
  lemma DetailRoundTrip(d: Detail)
    ensures DecodeEnrichment(EncodeDetail(d)) == Ok(Some(BlockOf(d)))
  {
    hide EncodeStrings, EncodeFiles, AsStrings, DecodeFiles;
    StringsRoundTrip(d.commitOids);
    FilesRoundTrip(d.files);
    EmptyRoundTrips();
  }

  lemma EmptyRoundTrips()
    ensures AsStrings([]) == Ok([]) && DecodeFiles([]) == Ok([])
  {
  }

  // ---- fetchEnrichment, mergeEnrichment, enrich ----

  /** One retry after a short rate-limit wait; patches replace the file list when fetched. */
  function FetchEnrichment(w: World): Answer {
    var answer :=
      if w.first.RateLimited? && w.first.retryAfter <= MAX_ENRICH_WAIT && w.slept then w.second else w.first;
    if answer.Fetched? && w.fetchPatches && w.patches.Some? then
      Fetched(answer.detail.(files := w.patches.value))
    else
      answer
  }

  function MergeFields(f: Fields, d: Detail): Fields {
    f[ENRICHMENT_KEY := EncodeDetail(d)]
  }

  /** mergeEnrichment: None when the body is no JSON object. */
  function MergeEnrichment(body: Body, d: Detail): Option<Body> {
    if body.Document? && body.root.Obj? then Some(Document(Obj(MergeFields(body.root.fields, d)))) else None
  }

  datatype Envelope = Envelope(updatedAt: Time, createdAt: Time, repo: string, installation: Int64)

  function DecodeEnvelope(body: Body): Result<Envelope, Failure> {
    var f :- PayloadFields(body);
    var _ :- AsInt(Get(f, "number"));
    var pr :- AsFields(Get(f, "pull_request"));
    var updatedAt :- AsTime(Get(pr, "updated_at"));
    var createdAt :- AsTime(Get(pr, "created_at"));
    var repo :- RepoName(f);
    var installation :- InstallationId(f);
    Ok(Envelope(updatedAt, createdAt, repo, installation))
  }

  datatype Enriched = Enriched(body: Body, status: string, occurredAt: Time)

  function Enrich(eventType: string, body: Body, w: World): Enriched {
    if eventType != "pull_request" then Enriched(body, "skipped", ZERO_TIME)
    else
      var env := DecodeEnvelope(body);
      if env.Err? || env.value.installation == 0 || env.value.repo == "" then Enriched(body, "failed", ZERO_TIME)
      else
        var occurredAt := if env.value.updatedAt == ZERO_TIME then env.value.createdAt else env.value.updatedAt;
        if !w.credentials then Enriched(body, "disabled", occurredAt)
        else
          match FetchEnrichment(w)
          case RateLimited(_) => Enriched(body, "rate_limited", occurredAt)
          case CallFailed => Enriched(body, "failed", occurredAt)
          case Fetched(d) =>
            match MergeEnrichment(body, d)
            case Some(merged) => Enriched(merged, "enriched", occurredAt)
            case None => Enriched(body, "failed", occurredAt)
  }

  function Stamped(headers: Headers, e: Enriched): Headers {
    var s := headers[HEADER_ENRICH_STATUS := Text(e.status)];
    if e.occurredAt == ZERO_TIME then s else s[HEADER_OCCURRED_AT := Rfc3339(e.occurredAt)]
  }

  /** The message for enriched.github: same key, same headers plus the two stamps. */
  function Output(msg: Message, w: World): Message {
    var e := Enrich(Raw(msg).eventType, msg.body, w);
    Message(msg.key, e.body, Stamped(msg.headers, e))
  }

  /** process, up to the write. */
  method Process(msg: Message, w: World) returns (out: Message)
    ensures out == Output(msg, w)
    ensures EmissionOf(msg, out)
  {
    var e := Enrich(Raw(msg).eventType, msg.body, w);
    var headers := CopyHeaders(msg.headers);
    headers := headers[HEADER_ENRICH_STATUS := Text(e.status)];
    if e.occurredAt != ZERO_TIME {
      headers := headers[HEADER_OCCURRED_AT := Rfc3339(e.occurredAt)];
    }
    out := Message(msg.key, e.body, headers);
    assert Emits(msg, w, out);
  }

  // ---- the overlay ----

  function OverlayItem(wi: WorkItem, d: Detail): WorkItem {
    wi.(changedFiles := d.changedFiles, additions := d.additions, deletions := d.deletions,
        commitOids := d.commitOids, files := d.files)
  }

  function Overlay(r: Result<Normalized, Failure>, d: Detail): Result<Normalized, Failure> {
    if r.Ok? then
      Ok(r.value.(workItems := seq(|r.value.workItems|,
                                   i requires 0 <= i < |r.value.workItems| => OverlayItem(r.value.workItems[i], d))))
    else r
  }

  lemma MergeLeavesPayload(f: Fields, d: Detail)
    ensures DecodePrPayload(MergeFields(f, d)) == DecodePrPayload(f)
  {
    var m := MergeFields(f, d);
    assert forall name :: name != ENRICHMENT_KEY ==> Get(m, name) == Get(f, name);
    assert ENRICHMENT_KEY[0] == '_';
    assert Get(m, "action") == Get(f, "action");
    assert Get(m, "number") == Get(f, "number");
    assert Get(m, "pull_request") == Get(f, "pull_request");
    assert Get(m, "repository") == Get(f, "repository");
    assert Get(m, "installation") == Get(f, "installation");
  }

  lemma BlockErrorsAreUndecodable(j: Json)
    ensures DecodeEnrichment(j).Err? ==> DecodeEnrichment(j).error == Undecodable
  {
  }

  lemma OverlayOfResult(p: Result<PrPayload, Failure>, block: Result<Option<EnrichmentBlock>, Failure>, d: Detail)
    requires block.Err? ==> block.error == Undecodable
    ensures PrResult(p, Ok(Some(BlockOf(d)))) == Overlay(PrResult(p, block), d) <==> p.Err? || block.Ok?
  {
    if p.Ok? && PrResult(p, block).Ok? {
      var merged, original := PrResult(p, Ok(Some(BlockOf(d)))).value, PrResult(p, block).value;
      assert merged.workItems[0] == OverlayItem(original.workItems[0], d);
      assert merged.workItems == Overlay(PrResult(p, block), d).value.workItems;
    }
  }

  /** Normalizing the merged payload is normalizing the original and overlaying five fields.
      It fails to be so exactly for a payload that decodes but arrives with an `_enrichment`
      member of its own that does not: the merge overwrites the member, and with it the error. */
  lemma EnrichmentCommutesWithNormalization(f: Fields, d: Detail)
    ensures NormalizePullRequest(MergeFields(f, d)) == Overlay(NormalizePullRequest(f), d)
       <==> DecodePrPayload(f).Err? || DecodeEnrichment(Get(f, ENRICHMENT_KEY)).Ok?
  {
    MergeLeavesPayload(f, d);
    DetailRoundTrip(d);
    BlockErrorsAreUndecodable(Get(f, ENRICHMENT_KEY));
    OverlayOfResult(DecodePrPayload(f), DecodeEnrichment(Get(f, ENRICHMENT_KEY)), d);
  }

  // ---- re-emissions of one delivery ----

  /** The connector may emit `out` for `msg`, depending on how the calls to GitHub went. */
  ghost predicate EmissionOf(msg: Message, out: Message) {
    exists w :: Emits(msg, w, out)
  }

  ghost predicate Emits(msg: Message, w: World, out: Message) {
    && out.key == msg.key
    && out.body == Enrich(Raw(msg).eventType, msg.body, w).body
    && HeaderText(out.headers, HEADER_EVENT) == HeaderText(msg.headers, HEADER_EVENT)
    && HeaderText(out.headers, HEADER_DELIVERY) == HeaderText(msg.headers, HEADER_DELIVERY)
  }

  function Strip(r: Result<Normalized, Failure>): Result<Normalized, Failure> {
    Overlay(r, Detail(0, 0, 0, [], []))
  }

  /** The webhook's own `_enrichment` member, if any, does not stand in the way of decoding: it
      decodes, or the rest does not. GitHub sends none. */
  ghost predicate BlockHarmless(msg: Message) {
    PayloadFields(msg.body).Ok? ==>
      var f := PayloadFields(msg.body).value;
      DecodePrPayload(f).Err? || DecodeEnrichment(Get(f, ENRICHMENT_KEY)).Ok?
  }

  /** An emission with another body is a merge into a PR payload that names its installation. */
  lemma ChangedIsMerged(msg: Message, w: World, out: Message) returns (f: Fields, d: Detail)
    requires Emits(msg, w, out) && out.body != msg.body
    ensures Raw(msg).eventType == "pull_request" && PayloadFields(msg.body) == Ok(f)
    ensures PayloadFields(out.body) == Ok(MergeFields(f, d))
    ensures Normalize(Raw(msg)) == NormalizePullRequest(f)
        && Normalize(Raw(out)) == NormalizePullRequest(MergeFields(f, d))
    ensures InstallationId(f).Ok? && InstallationId(f).value != 0
  {
    hide NormalizePullRequest, FetchEnrichment;
    f, d := msg.body.root.fields, FetchEnrichment(w).detail;
    assert out.body == Document(Obj(MergeFields(f, d)));
  }

  /** Where its own block alone keeps a webhook from decoding, it is bad, and merging cures it. */
  lemma MergingCures(f: Fields, d: Detail)
    requires DecodePrPayload(f).Ok? && DecodeEnrichment(Get(f, ENRICHMENT_KEY)).Err?
    requires InstallationId(f).Ok? && InstallationId(f).value != 0
    ensures NormalizePullRequest(f).Err? && NormalizePullRequest(MergeFields(f, d)).Ok?
  {
    MergeLeavesPayload(f, d);
    DetailRoundTrip(d);
    hide DecodePullRequest, DecodeEnrichment;
  }

  lemma StripOverlay(r: Result<Normalized, Failure>, d: Detail)
    ensures Strip(Overlay(r, d)) == Strip(r)
  {
    if r.Ok? {
      assert Strip(Overlay(r, d)).value.workItems == Strip(r).value.workItems;
    }
  }

  /** An emission has its webhook's delivery id and event type, and normalizes like it outside the
      five enriched fields exactly when it is passed through unchanged or the webhook's own block
      is harmless. */
  lemma EmissionNormalizesAlike(msg: Message, w: World, out: Message)
    requires Emits(msg, w, out)
    ensures Raw(out).deliveryId == Raw(msg).deliveryId && Raw(out).eventType == Raw(msg).eventType
    ensures Strip(Normalize(Raw(out))) == Strip(Normalize(Raw(msg))) <==> out.body == msg.body || BlockHarmless(msg)
  {
    if out.body != msg.body {
      var f, d := ChangedIsMerged(msg, w, out);
      hide Normalize, Strip, Overlay, NormalizePullRequest, Enrich, MergeFields, DecodePrPayload, DecodeEnrichment;
      EnrichmentCommutesWithNormalization(f, d);
      StripOverlay(NormalizePullRequest(f), d);
      if !BlockHarmless(msg) {
        MergingCures(f, d);
        StripKeepsOutcome(NormalizePullRequest(f));
        StripKeepsOutcome(NormalizePullRequest(MergeFields(f, d)));
      }
    }
  }

  lemma StripKeepsOutcome(r: Result<Normalized, Failure>)
    ensures Strip(r).Ok? <==> r.Ok?
  {
  }

  /** Two merges into one payload mean the same outside the five fields. */
  lemma MergesAgree(f: Fields, d: Detail, e: Detail)
    ensures Strip(NormalizePullRequest(MergeFields(f, d))) == Strip(NormalizePullRequest(MergeFields(f, e)))
  {
    var g := MergeFields(f, d);
    assert MergeFields(g, e) == MergeFields(f, e);
    DetailRoundTrip(d);
    assert Get(g, ENRICHMENT_KEY) == EncodeDetail(d);
    hide MergeFields, NormalizePullRequest, Overlay, Strip, DecodeEnrichment, EncodeDetail;
    EnrichmentCommutesWithNormalization(g, e);
    StripOverlay(NormalizePullRequest(g), e);
  }

  /** However often and however differently the connector re-emits a delivery, the normalizer sees
      one delivery id and one event type; and one meaning, exactly unless the webhook's own block
      is harmful and only one of the two emissions was merged. */
  lemma ReEmissionsAgree(msg: Message, a: Message, b: Message)
    requires EmissionOf(msg, a) && EmissionOf(msg, b)
    ensures Raw(a).deliveryId == Raw(b).deliveryId && Raw(a).eventType == Raw(b).eventType
    ensures Strip(Normalize(Raw(a))) == Strip(Normalize(Raw(b)))
       <==> BlockHarmless(msg) || (a.body == msg.body <==> b.body == msg.body)
  {
    var wa :| Emits(msg, wa, a);
    var wb :| Emits(msg, wb, b);
    EmissionNormalizesAlike(msg, wa, a);
    EmissionNormalizesAlike(msg, wb, b);
    if a.body != msg.body && b.body != msg.body {
      var f, d := ChangedIsMerged(msg, wa, a);
      var g, e := ChangedIsMerged(msg, wb, b);
      MergesAgree(f, d, e);
    }
    hide Normalize, Strip, BlockHarmless, Enrich, MergeFields;
  }

  /** A webhook whose block is harmful, passed through while another emission of it is merged, is bad. */
  lemma HarmfulIsBad(msg: Message, a: Message, b: Message)
    requires EmissionOf(msg, a) && EmissionOf(msg, b) && !BlockHarmless(msg) && a.body == msg.body && b.body != msg.body
    ensures Normalize(Raw(a)).Err?
  {
    var wb :| Emits(msg, wb, b);
    var f, d := ChangedIsMerged(msg, wb, b);
    hide NormalizePullRequest, DecodePrPayload, DecodeEnrichment, MergeFields, Enrich;
    MergingCures(f, d);
    assert Raw(a) == Raw(msg);
  }

  // ---- what is emitted, in terms of the webhook's members and GitHub's answers ----

  /** The webhook names its repository and installation, in members of the right types. */
  predicate IsAddressed(root: Json) {
    && IsEnvelope(root) && Repository(root) != "" && InstallationOf(root) != 0
    && IsInteger(Member(root, "number")) && IsObject(Member(root, "pull_request"))
    && IsInstant(Member(Member(root, "pull_request"), "updated_at"))
    && IsInstant(Member(Member(root, "pull_request"), "created_at"))
  }

  /** A rate limit of at most 30 seconds, waited out. */
  predicate WaitsOut(w: World) {
    w.first.RateLimited? && w.first.retryAfter <= 30_000_000_000 && w.slept
  }

  /** GitHub answered the first call with this detail, or the one after a short wait. */
  predicate Brings(w: World, d: Detail) {
    w.first == Fetched(d) || (WaitsOut(w) && w.second == Fetched(d))
  }

  predicate CanEnrich(msg: Message, w: World) {
    Raw(msg).eventType == "pull_request" && msg.body.Document? && IsAddressed(msg.body.root) && w.credentials
  }

  /** What is merged: the detail brought, with the patches as its files if they were fetched. */
  function Merged(w: World, d: Detail): Detail {
    if w.fetchPatches && w.patches.Some? then d.(files := w.patches.value) else d
  }

  lemma BroughtIsFetched(w: World, d: Detail)
    requires Brings(w, d)
    ensures FetchEnrichment(w) == Fetched(Merged(w, d))
  {
  }

  lemma FetchedIsBrought(w: World) returns (d: Detail)
    requires FetchEnrichment(w).Fetched?
    ensures Brings(w, d)
  {
    d := if w.first.Fetched? then w.first.detail else w.second.detail;
  }

  /** Where a detail is brought, it is merged into the payload. */
  lemma BodyIsMerged(msg: Message, w: World, d: Detail)
    requires CanEnrich(msg, w) && Brings(w, d)
    ensures msg.body.root.Obj?
    ensures Output(msg, w).body == Document(Obj(MergeFields(msg.body.root.fields, Merged(w, d))))
  {
    EnvelopeIsDecoded(msg.body);
    assert msg.body.root.Obj?;
    BroughtIsFetched(w, d);
    hide DecodeEnvelope, IsAddressed, FetchEnrichment, Brings, Merged, MergeFields;
  }

  /** Where none is, the body is passed through. */
  lemma BodyIsKept(msg: Message, w: World)
    requires !CanEnrich(msg, w) || forall d :: !Brings(w, d)
    ensures Output(msg, w).body == msg.body
  {
    EnvelopeIsDecoded(msg.body);
    hide DecodeEnvelope, IsAddressed, FetchEnrichment, Brings, MergeEnrichment;
    if FetchEnrichment(w).Fetched? {
      var d := FetchedIsBrought(w);
    }
  }

  lemma EnvelopeIsDecoded(body: Body)
    ensures DecodeEnvelope(body).Ok? && DecodeEnvelope(body).value.installation != 0
              && DecodeEnvelope(body).value.repo != ""
       <==> body.Document? && IsAddressed(body.root)
    ensures body.Document? && IsAddressed(body.root) ==>
              var env, pr := DecodeEnvelope(body).value, Member(body.root, "pull_request");
              && env.updatedAt == DateOf(Member(pr, "updated_at")) && env.createdAt == DateOf(Member(pr, "created_at"))
  {
    if body.Document? && IsObject(body.root) {
      var f := AsFields(body.root).value;
      FieldsAreMembers(body.root);
      EnvelopeIsRead(body.root);
      IntegerIsRead(f, "number");
      var pr := Member(body.root, "pull_request");
      FieldsAreMembers(pr);
      if AsFields(pr).Ok? {
        InstantIsRead(AsFields(pr).value, "updated_at");
        InstantIsRead(AsFields(pr).value, "created_at");
      }
      hide AsFields, AsInt, AsTime, AsTimePtr, IsInteger, IntOf, IsInstant, InstantOf, DateOf, Member, Get,
           IsRepository, IsInstallation, RepoName, InstallationId, Repository, InstallationOf;
    }
  }

  /** The status stamped on an emission tells exactly what happened to it. */
  lemma StatusIsExact(msg: Message, w: World)
    ensures var headers := Output(msg, w).headers;
            && "enrich-status" in headers && headers["enrich-status"].Text?
            && var status := headers["enrich-status"].text;
               && (status == "skipped" <==> Raw(msg).eventType != "pull_request")
               && (status == "disabled" <==> CanEnrich(msg, w.(credentials := true)) && !w.credentials)
               && (status == "enriched" <==> CanEnrich(msg, w) && exists d :: Brings(w, d))
               && (status == "rate_limited" <==>
                     CanEnrich(msg, w) && w.first.RateLimited? && (WaitsOut(w) ==> w.second.RateLimited?))
               && status in {"skipped", "disabled", "enriched", "rate_limited", "failed"}
  {
    EnvelopeIsDecoded(msg.body);
    assert msg.body.Document? && IsAddressed(msg.body.root) ==> msg.body.root.Obj?;
    hide DecodeEnvelope, IsAddressed, MergeFields;
    if w.first.Fetched? {
      assert Brings(w, w.first.detail);
    } else if WaitsOut(w) && w.second.Fetched? {
      assert Brings(w, w.second.detail);
    }
  }

  /** The rest of the message is the webhook, dated by its PR's update, else by its creation. */
  lemma EmissionKeepsTheRest(msg: Message, w: World)
    ensures var out := Output(msg, w);
            && out.key == msg.key
            && (forall h :: h != "enrich-status" && h != "occurred-at" ==>
                  (h in out.headers <==> h in msg.headers) && (h in msg.headers ==> out.headers[h] == msg.headers[h]))
            && var dated := CanEnrich(msg, w.(credentials := true));
               var pr := Member(Root(msg.body), "pull_request");
               var updated, created := DateOf(Member(pr, "updated_at")), DateOf(Member(pr, "created_at"));
               if dated && (updated != 0 || created != 0)
               then "occurred-at" in out.headers
                    && out.headers["occurred-at"] == Rfc3339(if updated != 0 then updated else created)
               else "occurred-at" in out.headers <==> "occurred-at" in msg.headers
  {
    EnvelopeIsDecoded(msg.body);
    hide DecodeEnvelope, IsAddressed, MergeEnrichment, FetchEnrichment, DateOf;
  }

  /** The body is passed through unchanged unless a detail was brought, and even then exactly if the
      webhook already carried that block. */
  lemma PassedThroughIff(msg: Message, w: World)
    ensures Output(msg, w).body == msg.body
       <==> !CanEnrich(msg, w) || forall d :: Brings(w, d) ==>
              Member(msg.body.root, "_enrichment") == EncodeDetail(Merged(w, d))
  {
    hide Enrich, Output, IsAddressed, Merged;
    if CanEnrich(msg, w) && exists d :: Brings(w, d) {
      var d :| Brings(w, d);
      BodyIsMerged(msg, w, d);
      var f, block := msg.body.root.fields, EncodeDetail(Merged(w, d));
      assert block.Obj?;
      hide EncodeDetail;
      assert MergeFields(f, Merged(w, d))["_enrichment"] == block;
      if Member(msg.body.root, "_enrichment") == block {
        assert MergeFields(f, Merged(w, d)) == f;
      }
    } else {
      BodyIsKept(msg, w);
    }
  }

  // ---- end to end: what an enriched pull request means ----

  lemma MergeKeepsMembers(f: Fields, d: Detail, name: string)
    requires name != "_enrichment"
    ensures Member(Obj(MergeFields(f, d)), name) == Member(Obj(f), name)
  {
  }

  lemma MergeKeepsPrEvent(f: Fields, d: Detail)
    ensures IsPrEvent(Obj(MergeFields(f, d))) == IsPrEvent(Obj(f))
    ensures InstallationOf(Obj(MergeFields(f, d))) == InstallationOf(Obj(f))
    ensures forall wi :: IsPrEventItem(wi, Obj(MergeFields(f, d))) == IsPrEventItem(wi, Obj(f))
  {
    assert "_enrichment"[0] == '_';
    MergeKeepsMembers(f, d, "action");
    MergeKeepsMembers(f, d, "number");
    MergeKeepsMembers(f, d, "pull_request");
    MergeKeepsMembers(f, d, "repository");
    MergeKeepsMembers(f, d, "installation");
    hide MergeFields, IsPullRequest, HasStatus, HasDate, IsEventOf, Member;
  }

  lemma MergedMeans(f: Fields, e: Detail)
    requires IsPrEvent(Obj(f)) && InstallationOf(Obj(f)) != 0
    ensures var r := NormalizePullRequest(MergeFields(f, e));
            && r.Ok? && |r.value.workItems| == 1
            && r.value == Normalized(InstallationOf(Obj(f)), r.value.workItems, [], [], [], false)
            && var wi := r.value.workItems[0];
               && wi.additions == e.additions && wi.deletions == e.deletions && wi.changedFiles == e.changedFiles
               && wi.commitOids == e.commitOids && wi.files == e.files
               && IsPrEventItem(wi, Obj(f))
  {
    var root := Obj(MergeFields(f, e));
    MergeKeepsPrEvent(f, e);
    PrPayloadIsDecoded(root);
    DetailRoundTrip(e);
    FieldsAreMembers(root);
    PullRequestIsRead(root);
    assert Get(MergeFields(f, e), ENRICHMENT_KEY) == EncodeDetail(e);
    hide MergeFields, IsPrEvent, IsPrEventItem, DecodePrPayload, DecodeEnrichment, InstallationOf, EncodeDetail,
         IsPrPayload, HasDetail, PrWorkItem, PullRequestOf, WorkItemEvent, WorkItemOccurredAt, Repository, Get, Member;
  }

  /** A pull request for which GitHub brings a detail means, to the normalizer, one item with that
      detail's counts and commits, with the patches as its files if they were asked for and fetched
      and the detail's files otherwise, and for the rest what the webhook itself says. */
  lemma EnrichedIsRead(msg: Message, w: World, d: Detail)
    requires CanEnrich(msg, w) && Brings(w, d) && IsPrEvent(msg.body.root)
    ensures var r := Normalize(Raw(Output(msg, w)));
            && r.Ok? && |r.value.workItems| == 1
            && r.value == Normalized(InstallationOf(msg.body.root), r.value.workItems, [], [], [], false)
            && var wi := r.value.workItems[0];
               && wi.additions == d.additions && wi.deletions == d.deletions && wi.changedFiles == d.changedFiles
               && wi.commitOids == d.commitOids
               && (if w.fetchPatches && w.patches.Some? then wi.files == w.patches.value else wi.files == d.files)
               && IsPrEventItem(wi, msg.body.root)
  {
    BodyIsMerged(msg, w, d);
    var out := Output(msg, w);
    EmissionKeepsTheRest(msg, w);
    assert Raw(out).eventType == "pull_request";
    var f, e := msg.body.root.fields, Merged(w, d);
    assert Normalize(Raw(out)) == NormalizePullRequest(MergeFields(f, e));
    MergedMeans(f, e);
    hide Normalize, NormalizePullRequest, Output, MergeFields, IsPrEvent, IsPrEventItem, InstallationOf, Raw;
  }
}
