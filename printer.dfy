/**
 * The print queue and the printer status (app/labeldesigner/printer.py).
 * The queue list is a class attribute of `PrinterQueue`, so every printer
 * queue object appends to and clears the same list; here that list is one
 * `SharedQueue` object that every `PrinterQueue` refers to.  The raster
 * conversion and the transport (brother_ql) are parameters.
 */
module Printer {
  import opened Wrappers
  import opened Strings
  import opened PyValues
  import opened LabelLayout
  import opened LabelText
  import opened Label

  /** One queued print: the label object, whether to cut after it, and 600 dpi. */
  datatype Entry = Entry(lbl: SimpleLabel, cut: bool, highRes: bool)

  /** `PrinterQueue._printQueue`, shared by every printer queue. */
  class SharedQueue {
    var entries: seq<Entry>

    constructor ()
      ensures entries == []
    {
      entries := [];
    }
  }

  /** The entries `add_label_to_queue(label, count, cut_once, high_res)` appends. */
  function NewEntries(lbl: SimpleLabel, count: int, cutOnce: bool, highRes: bool): (r: seq<Entry>)
    ensures |r| == if count > 0 then count else 0
  {
    seq(if count > 0 then count else 0, i => Entry(lbl, !cutOnce || i == count - 1, highRes))
  }

  /**
   * A batch holds `count` copies of the same label with the same
   * resolution; every copy cuts unless `cut_once` is set, and then only the
   * last copy cuts.
   */
  lemma NewEntriesShape(lbl: SimpleLabel, count: int, cutOnce: bool, highRes: bool)
    ensures var r := NewEntries(lbl, count, cutOnce, highRes);
      && (count <= 0 ==> r == [])
      && (forall i :: 0 <= i < |r| ==> r[i].lbl == lbl && r[i].highRes == highRes)
      && (!cutOnce ==> forall i :: 0 <= i < |r| ==> r[i].cut)
      && (cutOnce ==> forall i :: 0 <= i < |r| ==> (r[i].cut <==> i == |r| - 1))
  {
  }

  /** The rotation handed to the raster conversion. */
  datatype Rotation = Rotate0 | Rotate90 | RotateAuto

  /**
   * Endless tape is turned 0 degrees (standard) or 90 degrees (rotated);
   * die-cut labels let the converter decide.
   */
  function RotationFor(cfg: Config): (r: Rotation)
    ensures r.RotateAuto? <==> cfg.labelType.IsDieCut()
    ensures r.Rotate90? <==> cfg.labelType.EndlessLabel? && cfg.orientation.Rotated?
  {
    if cfg.labelType.EndlessLabel? then
      if cfg.orientation.Standard? then Rotate0 else Rotate90
    else RotateAuto
  }

  /** One `create_label` call. */
  datatype Job = Job(picture: Picture, labelSize: string, red: bool, dither: bool, cut: bool, dpi600: bool, rotate: Rotation)

  /** What the printer answers after `send`. */
  datatype SendInfo = SendInfo(didPrint: bool, readyForNextJob: bool)

  /** brother_ql's raster conversion and transport. */
  datatype Backend = Backend(
    /** The error `create_label` raises for a job, if any. */
    convert: Job -> Option<string>,
    /** `send(data, device)`. */
    send: (seq<Job>, string) -> Result<SendInfo>)

  /** The job for one entry once its label has been rendered. */
  function JobFor(e: Entry, picture: Picture, labelSize: string): Job {
    Job(picture, labelSize, Contains(labelSize, "red"), e.lbl.config.content != ImageBw,
        e.cut, e.highRes, RotationFor(e.lbl.config))
  }

  /** The job carries the entry's settings. */
  predicate JobMatches(job: Job, e: Entry, labelSize: string) {
    && job.cut == e.cut
    && job.dpi600 == e.highRes
    && job.rotate == RotationFor(e.lbl.config)
    && (job.dither <==> e.lbl.config.content != ImageBw)
    && (job.red <==> Contains(labelSize, "red"))
    && job.labelSize == labelSize
  }

  function Labels(entries: seq<Entry>): set<SimpleLabel> {
    set e | e in entries :: e.lbl
  }

  /** Every queued label has a text in `texts`. */
  predicate Covers(entries: seq<Entry>, texts: map<SimpleLabel, seq<TextLine>>) {
    forall i :: 0 <= i < |entries| ==> entries[i].lbl in texts
  }

  /** Every queued label holds the text `texts` gives it. */
  predicate Synced(entries: seq<Entry>, texts: map<SimpleLabel, seq<TextLine>>)
    reads Labels(entries)
  {
    forall j :: 0 <= j < |entries| ==> entries[j].lbl in texts && entries[j].lbl.text == texts[entries[j].lbl]
  }

  /** The text every queued label holds. */
  function TextsOf(entries: seq<Entry>): (r: map<SimpleLabel, seq<TextLine>>)
    reads Labels(entries)
    ensures r.Keys == Labels(entries)
  {
    map l | l in Labels(entries) :: l.text
  }

  /** The jobs made so far and the texts the labels hold by then. */
  datatype Run = Run(jobs: Result<seq<Job>>, texts: map<SimpleLabel, seq<TextLine>>)

  /**
   * One entry's job: the rendered label converted; a rendering or
   * conversion error stops it.
   */
  function EntryJob(e: Entry, rendered: Result<Picture>, labelSize: string, backend: Backend): (r: Result<Job>)
    ensures rendered.Err? ==> r == Err(rendered.msg)
    ensures r.Ok? ==> rendered.Ok? && r.value == JobFor(e, rendered.value, labelSize)
    ensures rendered.Ok? ==> (r.Ok? <==> backend.convert(JobFor(e, rendered.value, labelSize)).None?)
  {
    if rendered.Err? then Err(rendered.msg)
    else
      var job := JobFor(e, rendered.value, labelSize);
      var failure := backend.convert(job);
      if failure.Some? then Err(failure.value) else Ok(job)
  }

  /** How a label is rendered from a text: `generate(rotate=False)` with fixed symbols and metrics. */
  type Renderer = (Config, seq<TextLine>) -> Rendered

  function Unrotated(sym: Symbols, m: Metrics): Renderer {
    (c: Config, t: seq<TextLine>) => Render(c, t, sym, m, false)
  }

  /** The run after one more entry: its label rendered from the text it holds now. */
  function Step(prev: Run, e: Entry, labelSize: string, render: Renderer, backend: Backend): (r: Run)
    requires prev.jobs.Ok? && e.lbl in prev.texts
    ensures r.texts == prev.texts[e.lbl := render(e.lbl.config, prev.texts[e.lbl]).text]
    ensures var job := EntryJob(e, render(e.lbl.config, prev.texts[e.lbl]).picture, labelSize, backend);
      r.jobs == if job.Err? then Err(job.msg) else Ok(prev.jobs.value + [job.value])
  {
    var rendered := render(e.lbl.config, prev.texts[e.lbl]);
    var job := EntryJob(e, rendered.picture, labelSize, backend);
    Run(if job.Err? then Err(job.msg) else Ok(prev.jobs.value + [job.value]), prev.texts[e.lbl := rendered.text])
  }

  /**
   * The first `k` entries processed in order: each label is rendered from
   * the text it holds at that moment (a label queued twice is rendered
   * twice), and the first failure stops the run.
   */
  function RunJobs(entries: seq<Entry>, k: nat, texts: map<SimpleLabel, seq<TextLine>>, labelSize: string,
                   render: Renderer, backend: Backend): (r: Run)
    requires k <= |entries| && Covers(entries, texts)
    ensures r.texts.Keys == texts.Keys
    ensures r.jobs.Ok? ==> |r.jobs.value| == k
  {
    if k == 0 then Run(Ok([]), texts)
    else
      var prev := RunJobs(entries, k - 1, texts, labelSize, render, backend);
      if prev.jobs.Err? then prev else Step(prev, entries[k - 1], labelSize, render, backend)
  }

  lemma RunJobsNext(entries: seq<Entry>, k: nat, texts: map<SimpleLabel, seq<TextLine>>,
                    labelSize: string, render: Renderer, backend: Backend)
    requires k < |entries| && Covers(entries, texts)
    requires RunJobs(entries, k, texts, labelSize, render, backend).jobs.Ok?
    ensures RunJobs(entries, k + 1, texts, labelSize, render, backend)
      == Step(RunJobs(entries, k, texts, labelSize, render, backend), entries[k], labelSize, render, backend)
  {
  }

  lemma RunJobsErrNext(entries: seq<Entry>, k: nat, texts: map<SimpleLabel, seq<TextLine>>,
                       labelSize: string, render: Renderer, backend: Backend)
    requires k < |entries| && Covers(entries, texts)
    requires RunJobs(entries, k, texts, labelSize, render, backend).jobs.Err?
    ensures RunJobs(entries, k + 1, texts, labelSize, render, backend) == RunJobs(entries, k, texts, labelSize, render, backend)
  {
  }

  /** Once a run has failed, later entries change nothing. */
  lemma {:induction false} RunJobsErrStays(entries: seq<Entry>, k: nat, n: nat, texts: map<SimpleLabel, seq<TextLine>>,
                                           labelSize: string, render: Renderer, backend: Backend)
    requires k <= n <= |entries| && Covers(entries, texts)
    requires RunJobs(entries, k, texts, labelSize, render, backend).jobs.Err?
    ensures RunJobs(entries, n, texts, labelSize, render, backend) == RunJobs(entries, k, texts, labelSize, render, backend)
    decreases n - k
  {
    if k < n {
      RunJobsErrNext(entries, k, texts, labelSize, render, backend);
      RunJobsErrStays(entries, k + 1, n, texts, labelSize, render, backend);
    }
  }

  lemma StepMatches(prev: Run, e: Entry, labelSize: string, render: Renderer, backend: Backend)
    requires prev.jobs.Ok? && e.lbl in prev.texts
    ensures var r := Step(prev, e, labelSize, render, backend);
      r.jobs.Ok? ==> var n := |prev.jobs.value|;
        |r.jobs.value| == n + 1 && r.jobs.value[..n] == prev.jobs.value && JobMatches(r.jobs.value[n], e, labelSize)
  {
  }

  lemma {:induction false} JobsFollowQueue(entries: seq<Entry>, k: nat, texts: map<SimpleLabel, seq<TextLine>>,
                                           labelSize: string, render: Renderer, backend: Backend)
    requires k <= |entries| && Covers(entries, texts)
    requires RunJobs(entries, k, texts, labelSize, render, backend).jobs.Ok?
    ensures var jobs := RunJobs(entries, k, texts, labelSize, render, backend).jobs.value;
      forall i :: 0 <= i < k ==> JobMatches(jobs[i], entries[i], labelSize)
    decreases k
  {
    if k > 0 {
      var prev := RunJobs(entries, k - 1, texts, labelSize, render, backend);
      JobsFollowQueue(entries, k - 1, texts, labelSize, render, backend);
      StepMatches(prev, entries[k - 1], labelSize, render, backend);
      var jobs := Step(prev, entries[k - 1], labelSize, render, backend).jobs.value;
      assert jobs[..k - 1] == prev.jobs.value;
      forall i | 0 <= i < k - 1
        ensures JobMatches(jobs[i], entries[i], labelSize)
      {
        assert jobs[i] == prev.jobs.value[i];
      }
    }
  }

  /** A barcode rendering that succeeds drops the first line, as `generate` does. */
  ghost predicate DropsBarcodeLine(render: Renderer) {
    forall c: Config, t: seq<TextLine> ::
      UsesBarcode(c) && render(c, t).picture.Ok? ==> |t| > 0 && render(c, t).text == t[1..]
  }

  lemma UnrotatedDropsBarcodeLine(sym: Symbols, m: Metrics)
    ensures DropsBarcodeLine(Unrotated(sym, m))
  {
    forall c: Config, t: seq<TextLine> | UsesBarcode(c) && Unrotated(sym, m)(c, t).picture.Ok?
      ensures |t| > 0 && Unrotated(sym, m)(c, t).text == t[1..]
    {
      RenderText(c, t, sym, m, false);
    }
  }

  /**
   * A barcode label queued twice loses a line on each rendering: the copies
   * share one object, and each `generate` drops the first line again.
   */
  lemma RepeatedBarcodeLabelShrinks(l: SimpleLabel, text: seq<TextLine>, labelSize: string,
                                    render: Renderer, backend: Backend)
    requires UsesBarcode(l.config) && DropsBarcodeLine(render)
    requires var entries := [Entry(l, false, false), Entry(l, true, false)];
      RunJobs(entries, 2, map[l := text], labelSize, render, backend).jobs.Ok?
    ensures |text| >= 2
    ensures var entries := [Entry(l, false, false), Entry(l, true, false)];
      RunJobs(entries, 2, map[l := text], labelSize, render, backend).texts[l] == text[2..]
  {
    var entries := [Entry(l, false, false), Entry(l, true, false)];
    var texts := map[l := text];
    var first := RunJobs(entries, 1, texts, labelSize, render, backend);
    RunJobsNext(entries, 0, texts, labelSize, render, backend);
    assert first.jobs.Ok?;
    assert render(l.config, text).picture.Ok?;
    assert first.texts[l] == text[1..];
    RunJobsNext(entries, 1, texts, labelSize, render, backend);
    assert render(l.config, text[1..]).picture.Ok?;
    assert text[1..][1..] == text[2..];
  }

  /** What `process_queue` reports once the data is sent. */
  function SendOutcome(sent: Result<SendInfo>): Result<bool> {
    if sent.Err? then Err(sent.msg) else Ok(sent.value.didPrint && sent.value.readyForNextJob)
  }

  /** One entry of `process_queue`: `label.generate(rotate=False)`, then `create_label`. */
  method MakeJob(e: Entry, labelSize: string, sym: Symbols, m: Metrics, backend: Backend) returns (r: Result<Job>)
    modifies e.lbl
    ensures var rendered := Unrotated(sym, m)(e.lbl.config, old(e.lbl.text));
      e.lbl.text == rendered.text && r == EntryJob(e, rendered.picture, labelSize, backend)
  {
    var picture := e.lbl.Generate(false, sym, m);
    if picture.Err? {
      return Err(picture.msg);
    }
    var job := JobFor(e, picture.value, labelSize);
    var failure := backend.convert(job);
    if failure.Some? {
      return Err(failure.value);
    }
    r := Ok(job);
  }

  /** One pass of the loop of `process_queue`: the next entry's job, which extends the run. */
  method Advance(entries: seq<Entry>, i: nat, labelSize: string, sym: Symbols, m: Metrics, backend: Backend,
                 ghost start: map<SimpleLabel, seq<TextLine>>)
    returns (job: Result<Job>)
    requires i < |entries| && Covers(entries, start)
    requires RunJobs(entries, i, start, labelSize, Unrotated(sym, m), backend).jobs.Ok?
    requires Synced(entries, RunJobs(entries, i, start, labelSize, Unrotated(sym, m), backend).texts)
    modifies entries[i].lbl
    ensures var run := RunJobs(entries, i, start, labelSize, Unrotated(sym, m), backend);
      var next := RunJobs(entries, i + 1, start, labelSize, Unrotated(sym, m), backend);
      && next.jobs == (if job.Err? then Err(job.msg) else Ok(run.jobs.value + [job.value]))
      && Synced(entries, next.texts)
  {
    RunJobsNext(entries, i, start, labelSize, Unrotated(sym, m), backend);
    job := MakeJob(entries[i], labelSize, sym, m, backend);
  }

  /** The loop of `process_queue`: one job per entry, in order, stopping at the first error. */
  method CollectJobs(entries: seq<Entry>, labelSize: string, sym: Symbols, m: Metrics, backend: Backend)
    returns (r: Result<seq<Job>>)
    modifies Labels(entries)
    ensures var run := RunJobs(entries, |entries|, old(TextsOf(entries)), labelSize, Unrotated(sym, m), backend);
      && r == run.jobs
      && forall j :: 0 <= j < |entries| ==> entries[j].lbl.text == run.texts[entries[j].lbl]
  {
    ghost var start := TextsOf(entries);
    assert Covers(entries, start) by {
      forall j | 0 <= j < |entries| ensures entries[j].lbl in start {
        assert entries[j] in entries;
      }
    }
    var jobs: seq<Job> := [];
    var failure: Option<string> := None;
    var i := 0;
    while i < |entries| && failure.None?
      invariant 0 <= i <= |entries|
      invariant RunJobs(entries, i, start, labelSize, Unrotated(sym, m), backend).jobs
        == if failure.None? then Ok(jobs) else Err(failure.value)
      invariant Synced(entries, RunJobs(entries, i, start, labelSize, Unrotated(sym, m), backend).texts)
    {
      assert entries[i] in entries;
      var job := Advance(entries, i, labelSize, sym, m, backend, start);
      if job.Err? {
        failure := Some(job.msg);
      } else {
        jobs := jobs + [job.value];
      }
      i := i + 1;
    }
    if failure.Some? {
      RunJobsErrStays(entries, i, |entries|, start, labelSize, Unrotated(sym, m), backend);
      return Err(failure.value);
    }
    r := Ok(jobs);
  }

  class PrinterQueue {
    const model: string
    const deviceSpecifier: string
    const labelSize: string
    const queue: SharedQueue

    /** A printer queue; `queue` is the list shared by all of them. */
    constructor (model: string, deviceSpecifier: string, labelSize: string, queue: SharedQueue)
      ensures this.model == model && this.deviceSpecifier == deviceSpecifier
      ensures this.labelSize == labelSize && this.queue == queue
    {
      this.model := model;
      this.deviceSpecifier := deviceSpecifier;
      this.labelSize := labelSize;
      this.queue := queue;
    }

    /** `add_label_to_queue`: appends the batch after the existing entries. */
    method AddLabelToQueue(lbl: SimpleLabel, count: int, cutOnce: bool, highRes: bool)
      modifies queue
      ensures queue.entries == old(queue.entries) + NewEntries(lbl, count, cutOnce, highRes)
    {
      var cnt := 0;
      ghost var added: seq<Entry> := [];
      while cnt < count
        invariant count > 0 ==> 0 <= cnt <= count
        invariant count <= 0 ==> cnt == 0
        invariant added == NewEntries(lbl, count, cutOnce, highRes)[..cnt]
        invariant queue.entries == old(queue.entries) + added
      {
        var cut := !cutOnce || (cutOnce && cnt == count - 1);
        queue.entries := queue.entries + [Entry(lbl, cut, highRes)];
        added := added + [Entry(lbl, cut, highRes)];
        cnt := cnt + 1;
      }
      assert added == NewEntries(lbl, count, cutOnce, highRes);
    }

    /**
     * `process_queue`: renders and converts every entry in order, empties
     * the queue, sends the data and reports whether the printer printed and
     * is ready.  A failure before sending leaves the queue as it was (and the
     * labels rendered so far changed).
     */
    method ProcessQueue(sym: Symbols, m: Metrics, backend: Backend) returns (r: Result<bool>)
      modifies queue, Labels(queue.entries)
      ensures var entries := old(queue.entries);
        var run := RunJobs(entries, |entries|, old(TextsOf(queue.entries)), labelSize, Unrotated(sym, m), backend);
        && (forall j :: 0 <= j < |entries| ==> entries[j].lbl.text == run.texts[entries[j].lbl])
        && queue.entries == (if run.jobs.Ok? then [] else entries)
        && r == (if run.jobs.Err? then Err(run.jobs.msg) else SendOutcome(backend.send(run.jobs.value, deviceSpecifier)))
    {
      var jobs := CollectJobs(queue.entries, labelSize, sym, m, backend);
      if jobs.Err? {
        return Err(jobs.msg);
      }
      queue.entries := [];
      var sent := backend.send(jobs.value, deviceSpecifier);
      r := SendOutcome(sent);
    }
  }

  // ---------------------------------------------------------------------------
  // Printer status (printer.py:100-131)

  /** The status reported when nothing is known about the printer. */
  function DefaultStatus(device: PyValue): PyDict {
    map[
      "errors" := PList([]),
      "path" := device,
      "media_category" := PNone,
      "media_length" := PInt(0),
      "media_type" := PNone,
      "media_width" := PNone,
      "model" := PStr("Unknown"),
      "model_code" := PNone,
      "phase_type" := PStr("Unknown"),
      "series_code" := PNone,
      "setting" := PNone,
      "status_code" := PInt(0),
      "status_type" := PStr("Unknown"),
      "tape_color" := PStr(""),
      "text_color" := PStr(""),
      "red_support" := PBool(false)]
  }

  /** Whether a reported model is one of the two-colour models. */
  function RedSupport(model: PyValue, twoColour: set<string>): bool {
    model.PStr? && model.s in twoColour
  }

  /** The status after the reported keys from `i` on; a key without a default stops it. */
  datatype Merged = Merged(status: PyDict, error: Option<string>)

  function MergeFrom(status: PyDict, reported: seq<(string, PyValue)>, i: nat, twoColour: set<string>): (r: Merged)
    requires i <= |reported| && "red_support" in status
    ensures r.status.Keys == status.Keys
    ensures r.error.None? <==> forall j :: i <= j < |reported| ==> reported[j].0 in status
    decreases |reported| - i
  {
    if i == |reported| then Merged(status, None)
    else
      var key := reported[i].0;
      if key !in status then Merged(status, Some("'" + key + "'"))
      else
        var updated := status[key := reported[i].1];
        var next := if key == "model" then updated["red_support" := PBool(RedSupport(reported[i].1, twoColour))] else updated;
        MergeFrom(next, reported, i + 1, twoColour)
  }

  /**
   * `get_ptr_status`: the defaults overridden by what the printer reports;
   * any exception, including a reported key without a default, ends up as
   * the only entry of `errors`.
   */
  function PtrStatus(device: PyValue, probe: Result<seq<(string, PyValue)>>, twoColour: set<string>): PyDict {
    if probe.Err? then DefaultStatus(device)["errors" := PList([PStr(probe.msg)])]
    else
      var merged := MergeFrom(DefaultStatus(device), probe.value, 0, twoColour);
      if merged.error.Some? then merged.status["errors" := PList([PStr(merged.error.value)])]
      else merged.status
  }

  /** The status as the code builds it: a loop over the reported keys. */
  method GetPtrStatus(device: PyValue, probe: Result<seq<(string, PyValue)>>, twoColour: set<string>) returns (status: PyDict)
    ensures status == PtrStatus(device, probe, twoColour)
  {
    status := DefaultStatus(device);
    if probe.Err? {
      status := status["errors" := PList([PStr(probe.msg)])];
      return;
    }
    var reported := probe.value;
    var i := 0;
    while i < |reported|
      invariant 0 <= i <= |reported| && status.Keys == DefaultStatus(device).Keys
      invariant MergeFrom(DefaultStatus(device), reported, 0, twoColour) == MergeFrom(status, reported, i, twoColour)
    {
      var key := reported[i].0;
      if key !in status {
        status := status["errors" := PList([PStr("'" + key + "'")])];
        return;
      }
      status := status[key := reported[i].1];
      if key == "model" {
        status := status["red_support" := PBool(RedSupport(reported[i].1, twoColour))];
      }
      i := i + 1;
    }
  }

  /** The status always has exactly the default keys: a report never adds one. */
  lemma StatusKeys(device: PyValue, probe: Result<seq<(string, PyValue)>>, twoColour: set<string>)
    ensures PtrStatus(device, probe, twoColour).Keys == DefaultStatus(device).Keys
  {
    if probe.Ok? {
      var merged := MergeFrom(DefaultStatus(device), probe.value, 0, twoColour);
      assert "errors" in merged.status;
    }
  }

  /** When the printer cannot be reached, the defaults are reported with the one error. */
  lemma StatusOnFailure(device: PyValue, msg: string, twoColour: set<string>)
    ensures var s := PtrStatus(device, Err(msg), twoColour);
      && s["errors"] == PList([PStr(msg)])
      && forall k :: k in s && k != "errors" ==> s[k] == DefaultStatus(device)[k]
  {
  }

  predicate DistinctKeys(reported: seq<(string, PyValue)>) {
    forall i, j :: 0 <= i < j < |reported| ==> reported[i].0 != reported[j].0
  }

  /** Whether `key` is reported at or after position `i`. */
  predicate ReportedFrom(reported: seq<(string, PyValue)>, i: nat, key: string) {
    exists j :: i <= j < |reported| && reported[j].0 == key
  }

  /**
   * A merge that meets no unknown key leaves every key it is not told about
   * alone, gives every reported key (other than `red_support`) its reported
   * value, and sets `red_support` from the model whenever the model is
   * reported.
   */
  lemma {:induction false} MergeFacts(status: PyDict, reported: seq<(string, PyValue)>, i: nat, twoColour: set<string>)
    requires i <= |reported| && DistinctKeys(reported) && "red_support" in status
    requires MergeFrom(status, reported, i, twoColour).error.None?
    ensures var s := MergeFrom(status, reported, i, twoColour).status;
      && (forall j :: i <= j < |reported| && reported[j].0 != "red_support" ==> s[reported[j].0] == reported[j].1)
      && (forall k :: k in status && k != "red_support" && !ReportedFrom(reported, i, k) ==> s[k] == status[k])
      && (!ReportedFrom(reported, i, "red_support") && !ReportedFrom(reported, i, "model") ==> s["red_support"] == status["red_support"])
      && (forall j :: i <= j < |reported| && reported[j].0 == "model" && !ReportedFrom(reported, j + 1, "red_support") ==>
            s["red_support"] == PBool(RedSupport(reported[j].1, twoColour)))
    decreases |reported| - i
  {
    if i < |reported| {
      var key := reported[i].0;
      var updated := status[key := reported[i].1];
      var next := if key == "model" then updated["red_support" := PBool(RedSupport(reported[i].1, twoColour))] else updated;
      MergeFacts(next, reported, i + 1, twoColour);
      assert !ReportedFrom(reported, i + 1, key) by {
        forall j | i + 1 <= j < |reported| ensures reported[j].0 != key {
          assert reported[i].0 != reported[j].0;
        }
      }
      forall k | !ReportedFrom(reported, i, k)
        ensures !ReportedFrom(reported, i + 1, k)
      {
        forall j | i + 1 <= j < |reported| ensures reported[j].0 != k {
          assert !(i <= j < |reported| && reported[j].0 == k);
        }
      }
    }
  }

  /**
   * A printer that reports only known keys: every reported key overrides
   * its default, every other key keeps its default, and `red_support` says
   * whether the reported model is a two-colour model.
   */
  lemma StatusMerge(device: PyValue, reported: seq<(string, PyValue)>, twoColour: set<string>)
    requires DistinctKeys(reported)
    requires forall j :: 0 <= j < |reported| ==> reported[j].0 in DefaultStatus(device) && reported[j].0 != "red_support"
    ensures var s := PtrStatus(device, Ok(reported), twoColour);
      && (forall j :: 0 <= j < |reported| ==> s[reported[j].0] == reported[j].1)
      && (forall k :: k in DefaultStatus(device) && k != "red_support" && !ReportedFrom(reported, 0, k) ==> s[k] == DefaultStatus(device)[k])
      && (forall j :: 0 <= j < |reported| && reported[j].0 == "model" ==> s["red_support"] == PBool(RedSupport(reported[j].1, twoColour)))
      && (!ReportedFrom(reported, 0, "model") ==> s["red_support"] == PBool(false))
  {
    KnownKeysMerge(DefaultStatus(device), reported, 0, twoColour);
    MergeFacts(DefaultStatus(device), reported, 0, twoColour);
  }

  lemma {:induction false} KnownKeysMerge(status: PyDict, reported: seq<(string, PyValue)>, i: nat, twoColour: set<string>)
    requires i <= |reported| && "red_support" in status
    requires forall j :: i <= j < |reported| ==> reported[j].0 in status
    ensures MergeFrom(status, reported, i, twoColour).error.None?
    decreases |reported| - i
  {
    if i < |reported| {
      var key := reported[i].0;
      var updated := status[key := reported[i].1];
      var next := if key == "model" then updated["red_support" := PBool(RedSupport(reported[i].1, twoColour))] else updated;
      KnownKeysMerge(next, reported, i + 1, twoColour);
    }
  }

  /**
   * A reported key without a default raises KeyError: the keys before it
   * have been applied, and `errors` holds the quoted key.
   */
  lemma UnknownKeyReported(device: PyValue, reported: seq<(string, PyValue)>, twoColour: set<string>)
    requires |reported| > 0 && reported[0].0 !in DefaultStatus(device)
    ensures PtrStatus(device, Ok(reported), twoColour)
      == DefaultStatus(device)["errors" := PList([PStr("'" + reported[0].0 + "'")])]
  {
  }
}
