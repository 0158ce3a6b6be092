/** Cron job files: Parse and Serialize of pkg/cron/cron.go. */
module Cron {
  import opened Wrappers
  import opened Strings
  import opened Frontmatter
  import opened Framing

  // Durations are counted in nanoseconds.
  datatype CronJob = CronJob(name: string, schedule: string, suspended: bool, timeout: int, prompt: string)

  // The struct that is marshalled.
  datatype Raw = Raw(name: string, schedule: string, suspended: bool, timeout: string)

  datatype Error =
    | Frame(error: FrameError)
    | BadYaml
    | NameRequired
    | ScheduleRequired
    | BadTimeout
    | NegativeTimeout

  // The YAML and duration libraries.
  datatype Library = Library(
    marshal: Raw -> string,
    unmarshal: string -> Result<Raw, ()>,
    durationString: int -> string,
    parseDuration: string -> Result<int, ()>)

  // Behind the frame: the block and the trimmed body.
  function ParseFields(lib: Library, frontmatter: string, body: string): Result<CronJob, Error> {
    match lib.unmarshal(frontmatter)
    case Err(_) => Err(BadYaml)
    case Ok(raw) =>
      if raw.name == "" then Err(NameRequired)
      else if raw.schedule == "" then Err(ScheduleRequired)
      else if raw.timeout == "" then Ok(CronJob(raw.name, raw.schedule, raw.suspended, 0, body))
      else match lib.parseDuration(raw.timeout)
        case Err(_) => Err(BadTimeout)
        case Ok(d) =>
          if d < 0 then Err(NegativeTimeout)
          else Ok(CronJob(raw.name, raw.schedule, raw.suspended, d, body))
  }

  function Parse(lib: Library, content: string): Result<CronJob, Error> {
    match Unframe(content)
    case Err(e) => Err(Frame(e))
    case Ok(f) => ParseFields(lib, f.frontmatter, BodyOf(f))
  }

  function RawOf(lib: Library, job: CronJob): Raw {
    Raw(job.name, job.schedule, job.suspended, if job.timeout > 0 then lib.durationString(job.timeout) else "")
  }

  function Serialize(lib: Library, job: CronJob): string {
    Serialized(lib.marshal(RawOf(lib, job)), job.prompt)
  }

  // ---- what the libraries are relied on for -----------------------------------------------

  // A marshalled struct ends its last line, holds no line of dashes, and reads back without the
  // final newline.
  ghost predicate Marshals(lib: Library, raw: Raw) {
    var m := lib.marshal(raw);
    && m != "" && m[|m| - 1] == '\n'
    && FreeOfClosing(m[..|m| - 1])
    && lib.unmarshal(m[..|m| - 1]) == Ok(raw)
  }

  // What the round trip of one job asks of them.
  ghost predicate Faithful(lib: Library, job: CronJob) {
    && Marshals(lib, RawOf(lib, job))
    && (job.timeout > 0 ==>
      var text := lib.durationString(job.timeout); text != "" && lib.parseDuration(text) == Ok(job.timeout))
  }

  // ---- laws -------------------------------------------------------------------------------

  // A job file can hold exactly these jobs.
  predicate Storable(job: CronJob) {
    job.name != "" && job.schedule != "" && job.timeout >= 0 && Trimmed(Space, job.prompt)
  }

  lemma FieldsAreStorable(lib: Library, frontmatter: string, body: string)
    requires Trimmed(Space, body)
    ensures var r := ParseFields(lib, frontmatter, body); r.Ok? ==> Storable(r.value)
  {
  }

  // The block of a job file is read exactly when it is YAML of a named and scheduled job whose
  // timeout, if it gives one, is a duration that is not negative; and that is the job it is.
  lemma FieldsParseWhen(lib: Library, frontmatter: string, body: string, job: CronJob)
    ensures ParseFields(lib, frontmatter, body) == Ok(job) <==>
      && lib.unmarshal(frontmatter).Ok?
      && var raw := lib.unmarshal(frontmatter).value;
         && raw.name != "" && raw.schedule != ""
         && job.name == raw.name && job.schedule == raw.schedule && job.suspended == raw.suspended
         && job.prompt == body && job.timeout >= 0
         && if raw.timeout == "" then job.timeout == 0 else lib.parseDuration(raw.timeout) == Ok(job.timeout)
  {
  }

  // A job file is read exactly when it can be split and its block can be read; the prompt is the
  // trimmed rest.
  lemma ParsesExactlyWhen(lib: Library, content: string, job: CronJob)
    ensures Parse(lib, content) == Ok(job) <==>
      && Unframe(content).Ok?
      && var f := Unframe(content).value;
         ParseFields(lib, f.frontmatter, Trim(Space, f.trailer[4..])) == Ok(job)
  {
  }

  // The file of a job, byte for byte.
  lemma FileReads(lib: Library, job: CronJob)
    ensures Serialize(lib, job) ==
      "---\n"
      + lib.marshal(Raw(job.name, job.schedule, job.suspended,
                        if job.timeout > 0 then lib.durationString(job.timeout) else ""))
      + "---\n"
      + if job.prompt == "" then "" else job.prompt + "\n"
  {
  }

  // Whatever is parsed can be stored.
  lemma ParsedIsStorable(lib: Library, content: string)
    ensures Parse(lib, content).Ok? ==> Storable(Parse(lib, content).value)
  {
    var u := Unframe(content);
    if u.Ok? {
      TrimIsTrimmed(Space, u.value.trailer[4..]);
      FieldsAreStorable(lib, u.value.frontmatter, BodyOf(u.value));
    }
  }

  lemma SerializedUnframes(lib: Library, job: CronJob)
    requires Marshals(lib, RawOf(lib, job)) && Trimmed(Space, job.prompt)
    ensures var u := Unframe(Serialize(lib, job));
      u.Ok? && BodyOf(u.value) == job.prompt && lib.unmarshal(u.value.frontmatter) == Ok(RawOf(lib, job))
  {
    var m := lib.marshal(RawOf(lib, job));
    var block := m[..|m| - 1];
    assert m == block + "\n";
    FrameRoundTrip(block, job.prompt);
  }

  lemma FieldsRead(lib: Library, job: CronJob, frontmatter: string)
    requires Storable(job) && lib.unmarshal(frontmatter) == Ok(RawOf(lib, job))
    requires Faithful(lib, job)
    ensures ParseFields(lib, frontmatter, job.prompt) == Ok(job)
  {
  }

  // Saving a job and loading it gives the job back exactly when it is storable.
  lemma SaveThenLoad(lib: Library, job: CronJob)
    requires Faithful(lib, job)
    ensures Parse(lib, Serialize(lib, job)) == Ok(job) <==> Storable(job)
  {
    if Storable(job) {
      SerializedUnframes(lib, job);
      FieldsRead(lib, job, Unframe(Serialize(lib, job)).value.frontmatter);
    } else {
      ParsedIsStorable(lib, Serialize(lib, job));
    }
  }

  // Saving what was loaded, from any file at all, keeps what a load gives.
  lemma LoadThenSave(lib: Library, content: string, job: CronJob)
    requires Faithful(lib, job)
    ensures Parse(lib, content) == Ok(job) ==> Parse(lib, Serialize(lib, job)) == Ok(job)
  {
    ParsedIsStorable(lib, content);
    SaveThenLoad(lib, job);
  }

  lemma FieldsKeepTheBody(lib: Library, frontmatter: string, body: string)
    ensures var r := ParseFields(lib, frontmatter, body); r.Ok? ==> r.value.prompt == body
  {
  }

  lemma PromptIsBody(lib: Library, content: string)
    ensures Parse(lib, content).Ok? ==>
      && Unframe(content).Ok?
      && CLOSING <= Unframe(content).value.trailer
      && Parse(lib, content).value.prompt == BodyOf(Unframe(content).value)
  {
    var u := Unframe(content);
    if u.Ok? { FieldsKeepTheBody(lib, u.value.frontmatter, BodyOf(u.value)); }
  }

  // Rewriting a field in place, as is done to suspend a job, keeps the prompt.
  lemma RewriteKeepsThePrompt(lib: Library, content: string, key: string, v: string)
    requires OneLine(key) && !Dashed(key) && OneLine(v)
    ensures var r := Rewritten(content, key, Some(v));
      r.Ok? && Parse(lib, content).Ok? && Parse(lib, r.value).Ok? ==>
        Parse(lib, r.value).value.prompt == Parse(lib, content).value.prompt
  {
    var r := Rewritten(content, key, Some(v));
    if r.Ok? {
      RewriteKeepsTheFrame(content, key, v);
      PromptIsBody(lib, content);
      PromptIsBody(lib, r.value);
    }
  }
}
