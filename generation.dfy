/**
 * Queuing one video, or every template, and the event log each job leaves.
 * What happens outside the process is an input: the digest function (the
 * first 16 hex digits of SHA-256 in the package), and for each job an
 * `Exchange` holding the server's replies and the clock readings.
 */
module Generation {
  import opened Values
  import opened Text
  import opened Enrich
  import opened WanWorkflow
  import opened Config

  /**
   * What the package reads at import time: the prompt style (`House`), and
   * from the configuration the templates, the presets and the defaults.
   */
  datatype Settings = Settings(style: Style,
                               templates: TemplateTable,
                               presets: map<string, map<string, Value>>,
                               defaults: map<string, Value>)

  /** The server's replies and the clock readings seen by one job. */
  datatype Exchange = Exchange(
    promptId: string,      // returned when the graph is queued
    history: Value,        // the job's history entry once it completes
    elapsed: Value,        // the seconds between queuing and completion, rounded to 2 places
    startedAt: string,     // the timestamp of each log record
    queuedAt: string,
    completedAt: string)

  datatype Event =
    | QueueStart(words: nat)
    | Queued(promptId: string)
    | Completed(promptId: string, elapsed: Value, outputNodes: set<string>)

  /** One line of the event log. */
  datatype Record = Record(event: Event, mode: string, preset: Value, digest: string, timestamp: string)

  /** The append-only event log. */
  class Ledger {
    var records: seq<Record>

    constructor()
      ensures records == []
    {
      records := [];
    }

    /** Appends one record. */
    method Write(record: Record)
      modifies this
      ensures records == old(records) + [record]
    {
      records := records + [record];
    }
  }

  /** The template named `mode`, or no entries when there is none. */
  function TemplateFor(settings: Settings, mode: string): map<string, Value>
  {
    if mode in settings.templates.params then settings.templates.params[mode] else map[]
  }

  /** A template mode: not "wan", and the template exists with at least one entry. */
  predicate TemplateMode(settings: Settings, mode: string)
  {
    mode != "wan" && TemplateFor(settings, mode) != map[]
  }

  /**
   * The prompt the job is logged under: the caller's prompt, except in a
   * template mode with an empty prompt, where it is the template's `prompt`
   * entry (possibly overridden by the arguments), or "" without one.
   */
  function UsedPrompt(settings: Settings, prompt: string, mode: string, kwargs: map<string, Value>): Value
  {
    if TemplateMode(settings, mode) && prompt == "" then
      Get(TemplateFor(settings, mode) + kwargs, "prompt", Str(""))
    else Str(prompt)
  }

  /**
   * The arguments the graph is built from: the caller's in "wan" mode, the
   * template's overridden by the caller's (without `prompt`) in a template
   * mode, and none (an empty graph) otherwise.
   */
  function GraphArgs(settings: Settings, mode: string, kwargs: map<string, Value>): Option<map<string, Value>>
  {
    if mode == "wan" then Some(kwargs)
    else if TemplateMode(settings, mode) then Some((TemplateFor(settings, mode) + kwargs) - {"prompt"})
    else None
  }

  /** Why preparing the job raises, if it does. */
  function JobError(settings: Settings, prompt: string, mode: string, kwargs: map<string, Value>): Option<Error>
  {
    if !UsedPrompt(settings, prompt, mode, kwargs).Str? then Some(AttributeError("strip"))
    else match GraphArgs(settings, mode, kwargs)
      case Some(args) => WanError(args, settings.presets, settings.defaults)
      case None => None
  }

  /** A job: the prompt it is logged under and the graph it queues. */
  datatype Job = Job(usedPrompt: string, workflow: Workflow)

  /**
   * `wf` is the graph the job queues: an empty graph for an unknown mode,
   * otherwise the graph built from the job's arguments for the enriched
   * used prompt.
   */
  predicate Queues(settings: Settings, prompt: string, mode: string, kwargs: map<string, Value>, wf: Workflow)
    requires WellFormed(settings.style)
  {
    var used := UsedPrompt(settings, prompt, mode, kwargs);
    && used.Str?
    && match GraphArgs(settings, mode, kwargs)
       case None => wf == map[]
       case Some(args) => Built(wf, EnrichWith(used.s, settings.style), args, settings.presets, settings.defaults)
  }

  /**
   * The mode dispatch of `generate_video`. A graph, when there is one, is
   * built for the enriched prompt; the used prompt stays unenriched.
   */
  method PrepareJob(settings: Settings, prompt: string, mode: string, kwargs: map<string, Value>)
    returns (r: Result<Job>)
    requires WellFormed(settings.style)
    ensures JobError(settings, prompt, mode, kwargs).Some? ==> r == Err(JobError(settings, prompt, mode, kwargs).value)
    ensures JobError(settings, prompt, mode, kwargs).None? ==> r.Ok?
    ensures r.Ok? ==> UsedPrompt(settings, prompt, mode, kwargs) == Str(r.value.usedPrompt)
    ensures r.Ok? && GraphArgs(settings, mode, kwargs).None? ==> r.value.workflow == map[]
    ensures r.Ok? && GraphArgs(settings, mode, kwargs).Some? ==>
      var args := GraphArgs(settings, mode, kwargs).value;
      var enriched := EnrichWith(r.value.usedPrompt, settings.style);
      Built(r.value.workflow, enriched, args, settings.presets, settings.defaults)
  {
    var used := UsedPrompt(settings, prompt, mode, kwargs);
    if !used.Str? {
      return Err(AttributeError("strip"));
    }
    var args := GraphArgs(settings, mode, kwargs);
    if args.None? {
      return Ok(Job(used.s, map[]));
    }
    assert JobError(settings, prompt, mode, kwargs) == WanError(args.value, settings.presets, settings.defaults);
    var built := BuildForPrompt(used.s, args.value, settings);
    if built.Err? {
      return Err(built.error);
    }
    r := Ok(Job(used.s, built.value));
  }

  /** `build_wan_workflow(enrich_prompt(text), **args)` */
  method BuildForPrompt(text: string, args: map<string, Value>, settings: Settings) returns (r: Result<Workflow>)
    requires WellFormed(settings.style)
    ensures WanError(args, settings.presets, settings.defaults).Some? ==>
      r == Err(WanError(args, settings.presets, settings.defaults).value)
    ensures WanError(args, settings.presets, settings.defaults).None? ==> r.Ok?
    ensures r.Ok? ==> Built(r.value, EnrichWith(text, settings.style), args, settings.presets, settings.defaults)
  {
    var enriched := EnrichPrompt(text, settings.style);
    r := BuildWanWorkflow(enriched, args, settings.presets, settings.defaults);
  }

  /** The node keys of the history's `outputs` mapping, none when it is missing. */
  function OutputNodes(history: Value): set<string>
  {
    if history.Dict? && "outputs" in history.entries && history.entries["outputs"].Dict? then
      history.entries["outputs"].entries.Keys
    else {}
  }

  /** The three records of one job, in the order they are written. */
  function Trail(mode: string, preset: Value, used: string, digest: string, exchange: Exchange): (trail: seq<Record>)
    ensures |trail| == 3
    ensures trail[0].event == QueueStart(|Words(used)|)
    ensures trail[1].event == Queued(exchange.promptId)
    ensures trail[2].event.Completed? && trail[2].event.promptId == exchange.promptId
    ensures forall i :: 0 <= i < 3 ==> trail[i].mode == mode && trail[i].preset == preset && trail[i].digest == digest
  {
    [Record(QueueStart(|Words(used)|), mode, preset, digest, exchange.startedAt),
     Record(Queued(exchange.promptId), mode, preset, digest, exchange.queuedAt),
     Record(Completed(exchange.promptId, exchange.elapsed, OutputNodes(exchange.history)), mode, preset, digest,
            exchange.completedAt)]
  }

  /** The trail of a job that prepared without error: logged under the used prompt and its digest. */
  function JobTrail(settings: Settings, prompt: string, mode: string, kwargs: map<string, Value>,
                    digestOf: string -> string, exchange: Exchange): seq<Record>
  {
    var used := UsedPrompt(settings, prompt, mode, kwargs);
    var text := if used.Str? then used.s else "";
    Trail(mode, Get(kwargs, "preset", Null), text, digestOf(text), exchange)
  }

  /**
   * `generate_video(prompt, mode, **kwargs)`: prepares the job, then logs
   * its start, queues it, logs that, waits for it and logs its completion,
   * returning the history. `sent` is the graph handed to `queue_prompt`.
   * Nothing is logged or queued when preparing fails.
   */
  method GenerateVideo(ledger: Ledger, settings: Settings, prompt: string, mode: string,
                       kwargs: map<string, Value>, digestOf: string -> string, exchange: Exchange)
    returns (r: Result<Value>, sent: Option<Workflow>)
    requires WellFormed(settings.style)
    modifies ledger
    ensures JobError(settings, prompt, mode, kwargs).Some? <==> r.Err?
    ensures r.Err? <==> sent.None?
    ensures r.Ok? ==> sent.Some? && Queues(settings, prompt, mode, kwargs, sent.value)
    ensures r.Err? ==> r.error == JobError(settings, prompt, mode, kwargs).value
    ensures r.Err? ==> ledger.records == old(ledger.records)
    ensures r.Ok? ==> r.value == exchange.history
    ensures r.Ok? ==> ledger.records == old(ledger.records) + JobTrail(settings, prompt, mode, kwargs, digestOf, exchange)
  {
    var job := PrepareJob(settings, prompt, mode, kwargs);
    if job.Err? {
      return Err(job.error), None;
    }
    var used := job.value.usedPrompt;
    var digest := digestOf(used);
    var preset := Get(kwargs, "preset", Null);
    var start := Record(QueueStart(|Words(used)|), mode, preset, digest, exchange.startedAt);
    var queued := Record(Queued(exchange.promptId), mode, preset, digest, exchange.queuedAt);
    var completed := Record(Completed(exchange.promptId, exchange.elapsed, OutputNodes(exchange.history)),
                            mode, preset, digest, exchange.completedAt);
    assert JobTrail(settings, prompt, mode, kwargs, digestOf, exchange) == [start, queued, completed];
    ghost var before := ledger.records;
    ledger.Write(start);
    ledger.Write(queued);
    ledger.Write(completed);
    assert ledger.records == before + [start] + [queued] + [completed];
    AppendThree(before, start, queued, completed);
    return Ok(exchange.history), Some(job.value.workflow);
  }

  /** Appending three records one by one, stated once so the solver need not rediscover it. */
  lemma AppendThree(s: seq<Record>, a: Record, b: Record, c: Record)
    ensures s + [a] + [b] + [c] == s + [a, b, c]
  {
  }

  /** Regrouping a concatenation of records, stated once so the solver need not rediscover it. */
  lemma AppendAfter(s: seq<Record>, t: seq<Record>, u: seq<Record>)
    ensures (s + t) + u == s + (t + u)
  {
  }

  /** The names in `names` that are templates, in the given order. */
  function KnownTemplates(table: TemplateTable, names: seq<string>): (known: seq<string>)
    ensures forall i :: 0 <= i < |known| ==> known[i] in table.params
  {
    if names == [] then []
    else if names[0] in table.params then [names[0]] + KnownTemplates(table, names[1..])
    else KnownTemplates(table, names[1..])
  }

  /** `generate_templates`' selection: every template in order, or the known ones among `names`. */
  function Selection(table: TemplateTable, names: Option<seq<string>>): seq<string>
  {
    match names
    case None => table.names
    case Some(ns) => KnownTemplates(table, ns)
  }

  /** A name is selected exactly when it is given and is a template. */
  lemma {:induction false} KnownTemplatesMembers(table: TemplateTable, names: seq<string>, name: string)
    ensures name in KnownTemplates(table, names) <==> name in names && name in table.params
  {
    if names != [] {
      KnownTemplatesMembers(table, names[1..], name);
      assert names == [names[0]] + names[1..];
    }
  }

  /** `KnownTemplates` keeps order: it is `names` with the unknown names dropped. */
  lemma {:induction false} KnownTemplatesOfConcat(table: TemplateTable, a: seq<string>, b: seq<string>)
    ensures KnownTemplates(table, a + b) == KnownTemplates(table, a) + KnownTemplates(table, b)
  {
    if a != [] {
      assert (a + b)[0] == a[0] && (a + b)[1..] == a[1..] + b;
      KnownTemplatesOfConcat(table, a[1..], b);
      if a[0] in table.params {
        calc {
          KnownTemplates(table, a + b);
          [a[0]] + KnownTemplates(table, a[1..] + b);
          [a[0]] + (KnownTemplates(table, a[1..]) + KnownTemplates(table, b));
          ([a[0]] + KnownTemplates(table, a[1..])) + KnownTemplates(table, b);
        }
      }
    } else {
      assert a + b == b;
    }
  }

  /** Every template name is selected, and only those, when no names are given. */
  lemma SelectAllTemplates(table: TemplateTable, name: string)
    requires ValidTable(table)
    ensures name in Selection(table, None) <==> name in table.params
  {
  }

  /**
   * The records the first `n` jobs of a run over `selection` leave when
   * they succeed: the trail of each template in turn, the i-th with
   * `exchanges(i)`.
   */
  function Trails(settings: Settings, selection: seq<string>, n: nat, digestOf: string -> string,
                  exchanges: nat -> Exchange): (records: seq<Record>)
    requires n <= |selection|
    ensures |records| == 3 * n
    ensures n > 0 ==> records[3 * (n - 1)..] == JobTrail(settings, "", selection[n - 1], map[], digestOf, exchanges(n - 1))
  {
    if n == 0 then []
    else Trails(settings, selection, n - 1, digestOf, exchanges)
           + JobTrail(settings, "", selection[n - 1], map[], digestOf, exchanges(n - 1))
  }

  /** The history entries of the first `n` jobs. */
  function Histories(exchanges: nat -> Exchange, n: nat): (h: seq<Value>)
    ensures |h| == n && forall i :: 0 <= i < n ==> h[i] == exchanges(i).history
  {
    if n == 0 then [] else Histories(exchanges, n - 1) + [exchanges(n - 1).history]
  }

  /** The first `n` jobs of a run over `selection` prepare without error. */
  predicate Prepared(settings: Settings, selection: seq<string>, n: nat)
    requires n <= |selection|
  {
    n == 0 || (Prepared(settings, selection, n - 1) && JobError(settings, "", selection[n - 1], map[]).None?)
  }

  lemma {:induction false} PreparedAll(settings: Settings, selection: seq<string>, n: nat)
    requires n <= |selection|
    ensures Prepared(settings, selection, n) <==> forall k :: 0 <= k < n ==> JobError(settings, "", selection[k], map[]).None?
  {
    if n > 0 {
      PreparedAll(settings, selection, n - 1);
    }
  }

  /** The i-th job of a run over `selection`: `generate_video("", selection[i])`. */
  method GenerateTemplate(ledger: Ledger, settings: Settings, selection: seq<string>, i: nat,
                          digestOf: string -> string, exchanges: nat -> Exchange, ghost start: seq<Record>)
    returns (r: Result<Value>)
    requires i < |selection| && WellFormed(settings.style)
    requires ledger.records == start + Trails(settings, selection, i, digestOf, exchanges)
    requires Prepared(settings, selection, i)
    modifies ledger
    ensures r.Err? ==> && JobError(settings, "", selection[i], map[]).Some?
                       && r.error == JobError(settings, "", selection[i], map[]).value
                       && ledger.records == old(ledger.records)
    ensures r.Ok? ==> && Prepared(settings, selection, i + 1)
                      && r.value == exchanges(i).history
                      && ledger.records == start + Trails(settings, selection, i + 1, digestOf, exchanges)
  {
    var sent;
    r, sent := GenerateVideo(ledger, settings, "", selection[i], map[], digestOf, exchanges(i));
    if r.Ok? {
      AppendAfter(start, Trails(settings, selection, i, digestOf, exchanges),
                  JobTrail(settings, "", selection[i], map[], digestOf, exchanges(i)));
    }
  }

  /**
   * The loop of `generate_templates`: generates each name of `selection` in
   * turn, with an empty prompt, and stops at the first job that fails. The
   * i-th job sees `exchanges(i)`.
   */
  method GenerateSelected(ledger: Ledger, settings: Settings, selection: seq<string>,
                          digestOf: string -> string, exchanges: nat -> Exchange)
    returns (r: Result<seq<Value>>, ghost failed: nat)
    requires WellFormed(settings.style)
    modifies ledger
    ensures r.Ok? ==>
      && r.value == Histories(exchanges, |selection|)
      && ledger.records == old(ledger.records) + Trails(settings, selection, |selection|, digestOf, exchanges)
      && Prepared(settings, selection, |selection|)
    ensures r.Err? ==>
      && failed < |selection|
      && Prepared(settings, selection, failed)
      && JobError(settings, "", selection[failed], map[]).Some?
      && r.error == JobError(settings, "", selection[failed], map[]).value
      && ledger.records == old(ledger.records) + Trails(settings, selection, failed, digestOf, exchanges)
  {
    failed := 0;
    ghost var start := ledger.records;
    var results: seq<Value> := [];
    for i := 0 to |selection|
      invariant results == Histories(exchanges, i)
      invariant ledger.records == start + Trails(settings, selection, i, digestOf, exchanges)
      invariant Prepared(settings, selection, i)
    {
      var result := GenerateTemplate(ledger, settings, selection, i, digestOf, exchanges, start);
      if result.Err? {
        return Err(result.error), i;
      }
      assert Histories(exchanges, i + 1) == Histories(exchanges, i) + [result.value];
      results := results + [result.value];
    }
    return Ok(results), 0;
  }

  /**
   * `generate_templates(names)`: every template in the configured order
   * when no names are given, otherwise the given names that are templates.
   */
  method GenerateTemplates(ledger: Ledger, settings: Settings, names: Option<seq<string>>,
                           digestOf: string -> string, exchanges: nat -> Exchange)
    returns (r: Result<seq<Value>>)
    requires WellFormed(settings.style)
    modifies ledger
    ensures r.Ok? ==>
      var selection := Selection(settings.templates, names);
      && r.value == Histories(exchanges, |selection|)
      && ledger.records == old(ledger.records) + Trails(settings, selection, |selection|, digestOf, exchanges)
      && forall k :: 0 <= k < |selection| ==> JobError(settings, "", selection[k], map[]).None?
    ensures r.Err? ==>
      var selection := Selection(settings.templates, names);
      exists k :: 0 <= k < |selection|
        && (forall j :: 0 <= j < k ==> JobError(settings, "", selection[j], map[]).None?)
        && JobError(settings, "", selection[k], map[]).Some?
        && r.error == JobError(settings, "", selection[k], map[]).value
        && ledger.records == old(ledger.records) + Trails(settings, selection, k, digestOf, exchanges)
  {
    var selection := Selection(settings.templates, names);
    ghost var failed;
    r, failed := GenerateSelected(ledger, settings, selection, digestOf, exchanges);
    if r.Ok? {
      PreparedAll(settings, selection, |selection|);
    } else {
      PreparedAll(settings, selection, failed);
      assert 0 <= failed < |selection|
        && (forall j :: 0 <= j < failed ==> JobError(settings, "", selection[j], map[]).None?)
        && JobError(settings, "", selection[failed], map[]).Some?
        && r.error == JobError(settings, "", selection[failed], map[]).value
        && ledger.records == old(ledger.records) + Trails(settings, selection, failed, digestOf, exchanges);
    }
  }
}
