/**
 * The command line of the automation package: how `main` turns the words
 * after the program name into one action. The action itself (starting the
 * render server, generating videos, listing or running scheduled jobs,
 * rendering a script) is returned as a value rather than performed.
 */
module Cli {
  import opened Values
  import opened Text

  datatype Command =
    | StartServerCommand
    | AutomateCommand
    | RenderCommand
    | DownloadModelsCommand
    | TemplatesCommand
    | ScheduledCommand
    | ExperimentsCommand

  /** The word that selects a command. */
  function Name(c: Command): string
  {
    match c
    case StartServerCommand => "start-server"
    case AutomateCommand => "automate"
    case RenderCommand => "render"
    case DownloadModelsCommand => "download-models"
    case TemplatesCommand => "templates"
    case ScheduledCommand => "scheduled"
    case ExperimentsCommand => "experiments"
  }

  /** The command a word selects, if it is one of the seven command words. */
  function CommandNamed(word: string): Option<Command>
  {
    if word == "start-server" then Some(StartServerCommand)
    else if word == "automate" then Some(AutomateCommand)
    else if word == "render" then Some(RenderCommand)
    else if word == "download-models" then Some(DownloadModelsCommand)
    else if word == "templates" then Some(TemplatesCommand)
    else if word == "scheduled" then Some(ScheduledCommand)
    else if word == "experiments" then Some(ExperimentsCommand)
    else None
  }

  /** Command words and commands are in one-to-one correspondence. */
  lemma CommandNamedInverse(word: string, c: Command)
    ensures CommandNamed(Name(c)) == Some(c)
    ensures CommandNamed(word) == Some(c) ==> word == Name(c)
  {
  }

  /**
   * The command and its arguments: a leading command word selects its
   * command and is consumed; otherwise every word is an argument of
   * `automate`.
   */
  function SelectCommand(argv: seq<string>): (r: (Command, seq<string>))
    ensures forall c :: argv != [] && argv[0] == Name(c) ==> r == (c, argv[1..])
    ensures (argv == [] || forall c :: argv[0] != Name(c)) ==> r == (AutomateCommand, argv)
  {
    if argv != [] && CommandNamed(argv[0]).Some? then
      CommandNamedInverse(argv[0], CommandNamed(argv[0]).value);
      (CommandNamed(argv[0]).value, argv[1..])
    else
      (AutomateCommand, argv)
  }

  /** What `main` ends up doing. */
  datatype Action =
    | StartServer
    | QueueVideo(prompt: string, mode: string, kwargs: map<string, Value>)
    | QueueBatch(prompts: seq<string>, mode: string, kwargs: map<string, Value>)
    | QueueTemplates(names: Option<seq<string>>)
    | Experiments(args: seq<string>)
    | DownloadModels
    | RunScheduled(entries: seq<map<string, Value>>)
    | ListScheduled(entries: seq<map<string, Value>>)
    | NoPendingJobs
    | Render(prompt: string, output: string)

  // ---------------------------------------------------------------------
  // `automate`: the preset option

  /** Position of the first occurrence of `x` in `s`, as `list.index` finds it. */
  function IndexOf(s: seq<string>, x: string): (i: nat)
    requires x in s
    ensures i < |s| && s[i] == x && x !in s[..i]
  {
    if s[0] == x then 0
    else
      var i := 1 + IndexOf(s[1..], x);
      assert s[..i] == [s[0]] + s[1..][..i - 1];
      i
  }

  datatype Extracted = Extracted(preset: Option<string>, rest: seq<string>)

  /**
   * The first `--preset` and the word after it are taken out of the
   * arguments, and that word is the preset; a `--preset` that is the last
   * word has no value, and reading it fails.
   */
  function ExtractPreset(args: seq<string>): (r: Result<Extracted>)
    ensures r.Err? <==> "--preset" in args && IndexOf(args, "--preset") == |args| - 1
    ensures r.Err? ==> r.error == IndexError
    ensures "--preset" !in args ==> r == Ok(Extracted(None, args))
    ensures r.Ok? && "--preset" in args ==> r.value.preset == Some(args[IndexOf(args, "--preset") + 1])
    ensures r.Ok? && r.value.preset.Some? ==>
      var i := IndexOf(args, "--preset");
      && i <= |r.value.rest| && |r.value.rest| == |args| - 2
      && args == r.value.rest[..i] + ["--preset", r.value.preset.value] + r.value.rest[i..]
      && "--preset" !in r.value.rest[..i]
  {
    if "--preset" !in args then Ok(Extracted(None, args))
    else
      var i := IndexOf(args, "--preset");
      if i + 1 >= |args| then Err(IndexError)
      else
        var rest := args[..i] + args[i + 2..];
        assert rest[..i] == args[..i] && rest[i..] == args[i + 2..];
        assert args == args[..i] + ["--preset", args[i + 1]] + args[i + 2..];
        Ok(Extracted(Some(args[i + 1]), rest))
  }

  // ---------------------------------------------------------------------
  // `automate`: the schedule flags

  predicate IsScheduleFlag(word: string)
  {
    word == "--schedule" || word == "--no-schedule"
  }

  /** The arguments without the schedule flags, in their order. */
  function KeptWords(args: seq<string>): seq<string>
  {
    if args == [] then []
    else
      var last := args[|args| - 1];
      KeptWords(args[..|args| - 1]) + (if IsScheduleFlag(last) then [] else [last])
  }

  /** What the schedule flags ask for: the last of them wins. */
  function ScheduleOverride(args: seq<string>): Option<bool>
  {
    if args == [] then None
    else if args[|args| - 1] == "--schedule" then Some(true)
    else if args[|args| - 1] == "--no-schedule" then Some(false)
    else ScheduleOverride(args[..|args| - 1])
  }

  /**
   * One pass over the arguments that drops every schedule flag and
   * remembers the last one.
   */
  method StripSchedule(args: seq<string>) returns (kept: seq<string>, override: Option<bool>)
    ensures kept == KeptWords(args)
    ensures override == ScheduleOverride(args)
  {
    kept := [];
    override := None;
    for i := 0 to |args|
      invariant kept == KeptWords(args[..i])
      invariant override == ScheduleOverride(args[..i])
    {
      assert args[..i + 1][..i] == args[..i];
      var word := args[i];
      if word == "--schedule" {
        override := Some(true);
        continue;
      }
      if word == "--no-schedule" {
        override := Some(false);
        continue;
      }
      kept := kept + [word];
    }
    assert args[..|args|] == args;
  }

  /** No schedule flag is kept, and every other word is. */
  lemma {:induction false} KeptWordsMembers(args: seq<string>, word: string)
    ensures word in KeptWords(args) <==> word in args && !IsScheduleFlag(word)
  {
    if args != [] {
      KeptWordsMembers(args[..|args| - 1], word);
      assert args == args[..|args| - 1] + [args[|args| - 1]];
    }
  }

  /** Dropping the flags keeps the order of the other words. */
  lemma {:induction false} KeptWordsConcat(a: seq<string>, b: seq<string>)
    ensures KeptWords(a + b) == KeptWords(a) + KeptWords(b)
    decreases |b|
  {
    if b == [] {
      assert a + b == a;
    } else {
      var ab := a + b;
      assert ab[..|ab| - 1] == a + b[..|b| - 1];
      KeptWordsConcat(a, b[..|b| - 1]);
    }
  }

  /** The flag that asks for `b`. */
  function FlagFor(b: bool): string
  {
    if b then "--schedule" else "--no-schedule"
  }

  /** `args[i]` is `flag` and no schedule flag comes after it. */
  predicate LastFlagAt(args: seq<string>, i: int, flag: string)
  {
    0 <= i < |args| && args[i] == flag && forall j :: i < j < |args| ==> !IsScheduleFlag(args[j])
  }

  /** The override is `b` exactly when the last schedule flag asks for `b`. */
  lemma {:induction false} ScheduleOverrideLastWins(args: seq<string>, b: bool)
    ensures ScheduleOverride(args) == Some(b) <==> exists i :: LastFlagAt(args, i, FlagFor(b))
  {
    var flag := FlagFor(b);
    if args != [] {
      var n := |args| - 1;
      var init := args[..n];
      if args[n] == flag {
        assert LastFlagAt(args, n, flag);
      } else if IsScheduleFlag(args[n]) {
        forall i | 0 <= i < |args| ensures !LastFlagAt(args, i, flag) {
          if i < n {
            assert IsScheduleFlag(args[n]);
          }
        }
      } else {
        ScheduleOverrideLastWins(init, b);
        forall i ensures LastFlagAt(args, i, flag) <==> LastFlagAt(init, i, flag) {
          if 0 <= i < n {
            assert args[i] == init[i];
          }
        }
      }
    }
  }

  /** Without any schedule flag there is no override. */
  lemma {:induction false} ScheduleOverrideNone(args: seq<string>)
    ensures ScheduleOverride(args) == None <==> forall i :: 0 <= i < |args| ==> !IsScheduleFlag(args[i])
  {
    if args != [] {
      ScheduleOverrideNone(args[..|args| - 1]);
    }
  }

  /**
   * The keyword arguments passed on: the preset when it is a non-empty
   * word, and the schedule override when a flag was given.
   */
  function Kwargs(preset: Option<string>, override: Option<bool>): (kwargs: map<string, Value>)
    ensures forall k :: k in kwargs ==> k == "preset" || k == "use_schedule"
    ensures "preset" in kwargs <==> preset.Some? && preset.value != ""
    ensures "preset" in kwargs ==> kwargs["preset"] == Str(preset.value)
    ensures "use_schedule" in kwargs <==> override.Some?
    ensures "use_schedule" in kwargs ==> kwargs["use_schedule"] == Bool(override.value)
  {
    var withPreset: map<string, Value> := if preset.Some? && preset.value != "" then map["preset" := Str(preset.value)] else map[];
    if override.Some? then withPreset["use_schedule" := Bool(override.value)] else withPreset
  }

  // ---------------------------------------------------------------------
  // `automate`: prompt keys and prompts

  /**
   * The prompt keys and the words after them: the first argument split
   * at `||`, or the configured default key when there is no argument.
   */
  function PromptKeys(args: seq<string>, promptDefaults: map<string, string>): (r: Result<(seq<string>, seq<string>)>)
    ensures r.Ok? ==> |r.value.0| >= 1
    ensures args != [] ==> r.Ok? && JoinBars(r.value.0) == args[0] && r.value.1 == args[1..]
    ensures args != [] && r.Ok? ==>
      var keys := r.value.0;
      && (forall i :: 0 <= i < |keys| ==> !HasBars(keys[i]))
      && (forall i :: 0 <= i < |keys| - 1 ==> !EndsWithBar(keys[i]))
    ensures args == [] && "automate" in promptDefaults ==> r == Ok(([promptDefaults["automate"]], []))
    ensures args == [] && "automate" !in promptDefaults ==> r == Err(KeyError("automate"))
  {
    if args != [] then
      SplitBarsJoin(args[0]);
      SplitBarsPiecesFree(args[0]);
      SplitBarsLeftmost(args[0]);
      Ok((SplitBars(args[0]), args[1..]))
    else if "automate" in promptDefaults then Ok(([promptDefaults["automate"]], []))
    else Err(KeyError("automate"))
  }

  /** A key that names neither a prompt nor a template. */
  predicate Unknown(key: string, promptMap: map<string, string>, templates: set<string>)
  {
    key !in promptMap && key !in templates
  }

  /** The prompt a known key stands for: a template key stands for the empty prompt. */
  function PromptFor(key: string, promptMap: map<string, string>): string
  {
    if key in promptMap then promptMap[key] else ""
  }

  /** The first key that is not a prompt name, as a one-word tail. */
  function TemplateTail(keys: seq<string>, promptMap: map<string, string>): seq<string>
  {
    if keys == [] then []
    else
      var t := TemplateTail(keys[..|keys| - 1], promptMap);
      if t != [] || keys[|keys| - 1] in promptMap then t else [keys[|keys| - 1]]
  }

  /**
   * The template tail is empty when every key is a prompt name, and is
   * otherwise the first key that is not.
   */
  lemma {:induction false} TemplateTailFirst(keys: seq<string>, promptMap: map<string, string>)
    ensures TemplateTail(keys, promptMap) == [] <==> forall i :: 0 <= i < |keys| ==> keys[i] in promptMap
    ensures TemplateTail(keys, promptMap) != [] ==>
      exists i :: 0 <= i < |keys| && TemplateTail(keys, promptMap) == [keys[i]] && keys[i] !in promptMap
        && forall j :: 0 <= j < i ==> keys[j] in promptMap
  {
    if keys != [] {
      var init := keys[..|keys| - 1];
      TemplateTailFirst(init, promptMap);
      if TemplateTail(init, promptMap) != [] {
        var i :| 0 <= i < |init| && TemplateTail(init, promptMap) == [init[i]] && init[i] !in promptMap
          && forall j :: 0 <= j < i ==> init[j] in promptMap;
        assert keys[i] == init[i];
      } else {
        assert forall j :: 0 <= j < |init| ==> keys[j] in promptMap;
      }
    }
  }

  /**
   * Looks up every prompt key in order: a prompt name gives its prompt, a
   * template name gives the empty prompt and, when no words followed the
   * keys, becomes the only following word; any other key fails.
   */
  method ResolvePrompts(keys: seq<string>, tail0: seq<string>, promptMap: map<string, string>, templates: set<string>)
    returns (r: Result<seq<string>>, tail: seq<string>)
    ensures r.Ok? <==> forall i :: 0 <= i < |keys| ==> !Unknown(keys[i], promptMap, templates)
    ensures r.Err? ==>
      exists i :: && 0 <= i < |keys| && Unknown(keys[i], promptMap, templates) && r.error == KeyError(keys[i])
                  && forall j :: 0 <= j < i ==> !Unknown(keys[j], promptMap, templates)
    ensures r.Ok? ==> |r.value| == |keys| && forall i :: 0 <= i < |keys| ==> r.value[i] == PromptFor(keys[i], promptMap)
    ensures r.Ok? ==> tail == if tail0 != [] then tail0 else TemplateTail(keys, promptMap)
  {
    var prompts: seq<string> := [];
    tail := tail0;
    for i := 0 to |keys|
      invariant |prompts| == i
      invariant forall j :: 0 <= j < i ==> !Unknown(keys[j], promptMap, templates)
      invariant forall j :: 0 <= j < i ==> prompts[j] == PromptFor(keys[j], promptMap)
      invariant tail == if tail0 != [] then tail0 else TemplateTail(keys[..i], promptMap)
    {
      var key := keys[i];
      assert keys[..i + 1][..i] == keys[..i];
      if key in promptMap {
        prompts := prompts + [promptMap[key]];
        continue;
      }
      if key in templates {
        prompts := prompts + [""];
        if tail == [] {
          tail := [key];
        }
        continue;
      }
      return Err(KeyError(key)), tail;
    }
    assert keys[..|keys|] == keys;
    r := Ok(prompts);
  }

  /** The word that follows the prompt keys, or `wan`. */
  function ModeOf(tail: seq<string>): string
  {
    if tail != [] then tail[0] else "wan"
  }

  /**
   * What `automate` may end with: a failed preset read, a missing default
   * key, the first unknown prompt key, or one generation (one prompt) or a
   * batch (several) with the mode and keyword arguments read from the
   * command line.
   */
  ghost predicate AutomateOutcome(args: seq<string>, promptMap: map<string, string>, promptDefaults: map<string, string>,
                                  templates: set<string>, r: Result<Action>)
  {
    match ExtractPreset(args)
    case Err(e) => r == Err(e)
    case Ok(ex) =>
      var kwargs := Kwargs(ex.preset, ScheduleOverride(ex.rest));
      match PromptKeys(KeptWords(ex.rest), promptDefaults)
      case Err(e) => r == Err(e)
      case Ok(found) =>
        var keys := found.0;
        if exists i :: 0 <= i < |keys| && Unknown(keys[i], promptMap, templates) then
          exists i :: 0 <= i < |keys| && Unknown(keys[i], promptMap, templates)
            && r == Err(KeyError(keys[i])) && forall j :: 0 <= j < i ==> !Unknown(keys[j], promptMap, templates)
        else
          var mode := ModeOf(if found.1 != [] then found.1 else TemplateTail(keys, promptMap));
          r.Ok? &&
          if |keys| > 1 then
            && r.value.QueueBatch? && r.value.mode == mode && r.value.kwargs == kwargs
            && |r.value.prompts| == |keys|
            && forall i :: 0 <= i < |keys| ==> r.value.prompts[i] == PromptFor(keys[i], promptMap)
          else
            r.value == QueueVideo(PromptFor(keys[0], promptMap), mode, kwargs)
  }

  /** The `automate` command. */
  method Automate(args: seq<string>, promptMap: map<string, string>, promptDefaults: map<string, string>,
                  templates: set<string>) returns (r: Result<Action>)
    ensures AutomateOutcome(args, promptMap, promptDefaults, templates, r)
  {
    var extracted := ExtractPreset(args);
    if extracted.Err? {
      return Err(extracted.error);
    }
    var kept, override := StripSchedule(extracted.value.rest);
    var kwargs := Kwargs(extracted.value.preset, override);
    var found := PromptKeys(kept, promptDefaults);
    if found.Err? {
      return Err(found.error);
    }
    var keys := found.value.0;
    var prompts, tail := ResolvePrompts(keys, found.value.1, promptMap, templates);
    if prompts.Err? {
      return Err(prompts.error);
    }
    var mode := ModeOf(tail);
    if |prompts.value| > 1 {
      return Ok(QueueBatch(prompts.value, mode, kwargs));
    }
    return Ok(QueueVideo(prompts.value[0], mode, kwargs));
  }

  // ---------------------------------------------------------------------
  // `scheduled`: the preset filter

  /** `filter` unless a later pair overrides it. */
  function Later(filter: Option<string>, later: Option<string>): Option<string>
  {
    if later.Some? then later else filter
  }

  /**
   * The preset filter of a word list read from the front: `--preset`
   * followed by a word sets the filter and both words are consumed, a
   * later pair overrides an earlier one, and any other word is skipped.
   */
  function PairedPreset(words: seq<string>): Option<string>
  {
    if |words| >= 2 && words[0] == "--preset" then Later(Some(words[1]), PairedPreset(words[2..]))
    else if words == [] then None
    else PairedPreset(words[1..])
  }

  /** The scan of `scheduled`: an index that always advances over the words. */
  method ScanPresetFilter(words: seq<string>) returns (filter: Option<string>)
    ensures filter == PairedPreset(words)
  {
    filter := None;
    var idx := 0;
    while idx < |words|
      invariant 0 <= idx <= |words|
      invariant Later(filter, PairedPreset(words[idx..])) == PairedPreset(words)
      decreases |words| - idx
    {
      var word := words[idx];
      if word == "--preset" && idx + 1 < |words| {
        assert words[idx..][2..] == words[idx + 2..];
        filter := Some(words[idx + 1]);
        idx := idx + 2;
        continue;
      }
      assert words[idx..][1..] == words[idx + 1..];
      idx := idx + 1;
    }
  }

  /** There is a filter exactly when some `--preset` has a word after it. */
  lemma {:induction false} PairedPresetSome(words: seq<string>)
    ensures PairedPreset(words).Some? <==> exists i :: 0 <= i < |words| - 1 && words[i] == "--preset"
  {
    if |words| >= 2 && words[0] == "--preset" {
      PairedPresetSome(words[2..]);
    } else if words != [] {
      PairedPresetSome(words[1..]);
      if exists i :: 0 <= i < |words| - 1 && words[i] == "--preset" {
        var i :| 0 <= i < |words| - 1 && words[i] == "--preset";
        assert words[1..][i - 1] == words[i];
      }
    }
  }

  /**
   * A word after the last word cannot be read as a preset unless that last
   * word is `--preset`: in particular a final `--preset` without a value is
   * ignored.
   */
  lemma {:induction false} PairedPresetIgnoresLastWord(words: seq<string>, last: string)
    requires words == [] || words[|words| - 1] != "--preset"
    ensures PairedPreset(words + [last]) == PairedPreset(words)
  {
    var w := words + [last];
    if |words| >= 2 && words[0] == "--preset" {
      assert w[2..] == words[2..] + [last];
      PairedPresetIgnoresLastWord(words[2..], last);
    } else if |words| >= 1 {
      assert w[1..] == words[1..] + [last];
      PairedPresetIgnoresLastWord(words[1..], last);
    } else {
      assert w == [last];
    }
  }

  /** A last `--preset X` pair wins over every earlier one. */
  lemma {:induction false} PairedPresetLastPairWins(words: seq<string>, x: string)
    requires words == [] || words[|words| - 1] != "--preset"
    ensures PairedPreset(words + ["--preset", x]) == Some(x)
  {
    var w := words + ["--preset", x];
    if |words| >= 2 && words[0] == "--preset" {
      assert w[2..] == words[2..] + ["--preset", x];
      PairedPresetLastPairWins(words[2..], x);
    } else if |words| >= 1 {
      assert w[1..] == words[1..] + ["--preset", x];
      PairedPresetLastPairWins(words[1..], x);
    } else {
      assert w[2..] == [];
    }
  }

  /** The pending entries whose preset is the filter, in their order. */
  function Matching(entries: seq<map<string, Value>>, preset: string): seq<map<string, Value>>
  {
    if entries == [] then []
    else
      var last := entries[|entries| - 1];
      Matching(entries[..|entries| - 1], preset) + (if Get(last, "preset", Null) == Str(preset) then [last] else [])
  }

  /** An entry is kept exactly when it is pending and has the filter as its preset. */
  lemma {:induction false} MatchingMembers(entries: seq<map<string, Value>>, preset: string, e: map<string, Value>)
    ensures e in Matching(entries, preset) <==> e in entries && Get(e, "preset", Null) == Str(preset)
  {
    if entries != [] {
      MatchingMembers(entries[..|entries| - 1], preset, e);
      assert entries == entries[..|entries| - 1] + [entries[|entries| - 1]];
    }
  }

  /** Filtering keeps the order: it distributes over concatenation. */
  lemma {:induction false} MatchingConcat(a: seq<map<string, Value>>, b: seq<map<string, Value>>, preset: string)
    ensures Matching(a + b, preset) == Matching(a, preset) + Matching(b, preset)
    decreases |b|
  {
    if b == [] {
      assert a + b == a;
    } else {
      var ab := a + b;
      assert ab[..|ab| - 1] == a + b[..|b| - 1];
      MatchingConcat(a, b[..|b| - 1], preset);
    }
  }

  /** The pending entries after filtering: a missing or empty filter keeps them all. */
  function Filtered(entries: seq<map<string, Value>>, filter: Option<string>): seq<map<string, Value>>
  {
    if filter.Some? && filter.value != "" then Matching(entries, filter.value) else entries
  }

  /** Whether the filter keeps an entry: a missing or empty filter keeps every entry. */
  predicate Selects(filter: Option<string>, e: map<string, Value>)
  {
    filter.None? || filter.value == "" || Get(e, "preset", Null) == Str(filter.value)
  }

  /** An entry is kept exactly when it is pending and the filter selects it. */
  lemma FilteredMembers(entries: seq<map<string, Value>>, filter: Option<string>, e: map<string, Value>)
    ensures e in Filtered(entries, filter) <==> e in entries && Selects(filter, e)
  {
    if filter.Some? && filter.value != "" {
      MatchingMembers(entries, filter.value, e);
    }
  }

  /** The preset filter of `scheduled`: read from the words after an optional `--run-now`. */
  function ScheduleFilter(args: seq<string>): Option<string>
  {
    PairedPreset(if args != [] && args[0] == "--run-now" then args[1..] else args)
  }

  /**
   * What `scheduled` ends with, given the pending entries: with `--run-now`
   * the selected entries are run, otherwise they are listed; with none
   * selected, a notice.
   */
  function ScheduledOutcome(args: seq<string>, pending: seq<map<string, Value>>): (a: Action)
    ensures a.NoPendingJobs? || a.RunScheduled? || a.ListScheduled?
    ensures a.NoPendingJobs? <==> forall e :: e in pending ==> !Selects(ScheduleFilter(args), e)
    ensures a.RunScheduled? ==> args != [] && args[0] == "--run-now"
    ensures a.ListScheduled? ==> args == [] || args[0] != "--run-now"
    ensures !a.NoPendingJobs? ==>
      && a.entries == Filtered(pending, ScheduleFilter(args))
      && forall e :: e in a.entries <==> e in pending && Selects(ScheduleFilter(args), e)
  {
    var runNow := args != [] && args[0] == "--run-now";
    var filter := ScheduleFilter(args);
    var entries := Filtered(pending, filter);
    forall e ensures e in entries <==> e in pending && Selects(filter, e) {
      FilteredMembers(pending, filter, e);
    }
    assert entries != [] ==> entries[0] in entries;
    if entries == [] then NoPendingJobs
    else if runNow then RunScheduled(entries)
    else ListScheduled(entries)
  }

  /** The `scheduled` command. */
  method Scheduled(args: seq<string>, pending: seq<map<string, Value>>) returns (a: Action)
    ensures a == ScheduledOutcome(args, pending)
  {
    var runNow := args != [] && args[0] == "--run-now";
    var words := if runNow then args[1..] else args;
    var filter := ScanPresetFilter(words);
    var entries := Filtered(pending, filter);
    if entries == [] {
      return NoPendingJobs;
    }
    if runNow {
      return RunScheduled(entries);
    }
    return ListScheduled(entries);
  }

  // ---------------------------------------------------------------------
  // `render` and the command dispatch

  /**
   * The `render` command: the prompt named by the first argument, or by
   * the configured default key, rendered to the next argument or to
   * `output.mp4`.
   */
  function RenderOutcome(args: seq<string>, promptMap: map<string, string>, promptDefaults: map<string, string>)
    : (r: Result<Action>)
    ensures args == [] && "script" !in promptDefaults ==> r == Err(KeyError("script"))
    ensures args == [] && "script" in promptDefaults ==>
      var key := promptDefaults["script"];
      && (key in promptMap ==> r == Ok(Render(promptMap[key], "output.mp4")))
      && (key !in promptMap ==> r == Err(KeyError(key)))
    ensures r.Err? && args != [] ==> r.error == KeyError(args[0]) && args[0] !in promptMap
    ensures r.Ok? ==> r.value.Render? && r.value.prompt in promptMap.Values
    ensures r.Ok? && |args| >= 2 ==> args[0] in promptMap && r.value == Render(promptMap[args[0]], args[1])
    ensures r.Ok? && |args| == 1 ==> args[0] in promptMap && r.value == Render(promptMap[args[0]], "output.mp4")
    ensures args != [] && args[0] in promptMap ==> r.Ok?
  {
    var found: Result<(string, seq<string>)> :=
      if args != [] then Ok((args[0], args[1..]))
      else if "script" in promptDefaults then Ok((promptDefaults["script"], []))
      else Err(KeyError("script"));
    if found.Err? then Err(found.error)
    else if found.value.0 !in promptMap then Err(KeyError(found.value.0))
    else Ok(Render(promptMap[found.value.0], if found.value.1 != [] then found.value.1[0] else "output.mp4"))
  }

  /**
   * `main`: the words after the program name, the configured prompts,
   * default prompt keys and template names, and the pending scheduled
   * jobs give the action to perform or the error that stops it.
   */
  method Run(argv: seq<string>, promptMap: map<string, string>, promptDefaults: map<string, string>,
             templates: set<string>, pending: seq<map<string, Value>>) returns (r: Result<Action>)
    ensures var (command, args) := SelectCommand(argv);
      && (command == StartServerCommand ==> r == Ok(StartServer))
      && (command == AutomateCommand ==> AutomateOutcome(args, promptMap, promptDefaults, templates, r))
      && (command == ScheduledCommand ==> r == Ok(ScheduledOutcome(args, pending)))
      && (command == TemplatesCommand ==> r == Ok(QueueTemplates(if args != [] then Some(args) else None)))
      && (command == ExperimentsCommand ==> r == Ok(Experiments(args)))
      && (command == DownloadModelsCommand ==> r == Ok(DownloadModels))
      && (command == RenderCommand ==> r == RenderOutcome(args, promptMap, promptDefaults))
  {
    var (command, args) := SelectCommand(argv);
    match command
    case StartServerCommand =>
      r := Ok(StartServer);
    case AutomateCommand =>
      r := Automate(args, promptMap, promptDefaults, templates);
    case ScheduledCommand =>
      var a := Scheduled(args, pending);
      r := Ok(a);
    case TemplatesCommand =>
      r := Ok(QueueTemplates(if args != [] then Some(args) else None));
    case ExperimentsCommand =>
      r := Ok(Experiments(args));
    case DownloadModelsCommand =>
      r := Ok(DownloadModels);
    case RenderCommand =>
      r := RenderOutcome(args, promptMap, promptDefaults);
  }
}
