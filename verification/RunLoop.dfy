/** The Go agent's run loop; everything outside it is a script. */
module RunLoop {
  import opened TextLines
  import opened ConversationLog
  import opened ConvStore
  import opened RunScript
  import opened Sequences
  import opened UserLines
  import CompactDecision
  import Transcript

  // ---------------------------------------------------------------- the agent

  /** The files a fork copies. */
  datatype SessionCopy = SessionCopy(conv: string, archive: string)

  /**
   The files hold these archived and live lines: archive and conversation together always, and
   one entry a line on either side of the cut as long as no live entry is torn over several lines.
   */
  ghost predicate Holds(format: Format, files: SessionCopy, archived: Log, live: Log) {
    && Faithful(format)
    && files.archive + files.conv == RenderAll(format, archived + live)
    && (OneLineLog(live) ==>
          files.conv == RenderAll(format, live) && files.archive == RenderAll(format, archived))
  }

  /**
   Lines are paired from the first archived one to the last, and after a cut the live ones start
   with a line that the reader takes for user text.
   */
  ghost predicate Paired(format: Format, archived: Log, live: Log) {
    && WellFormed(archived + live)
    && (archived != [] ==> live != [] && format.isUserLine(format.render(live[0])))
  }

  /**
   Exactly when the live lines alone are a well-formed log: nothing is archived, or their first one
   is taken for what it is. Calls stay with their results unless it is a line of results.
   */
  lemma LiveLogIsWellFormed(format: Format, archived: Log, live: Log)
    requires Paired(format, archived, live)
    ensures WellFormed(live) <==> archived == [] || Told(format, live[0])
    ensures WellFormed(archived) && AllPaired(live) <==> archived == [] || !live[0].ToolResults?
  {
    var history := archived + live;
    if archived == [] {
      assert history == live;
    } else {
      assert history[|archived|..] == live && history[..|archived|] == archived;
      if live[0].UserText? {
        CutAtUser(history, |archived|);
      } else if !live[0].ToolResults? {
        CutAtReply(history, |archived|);
      } else {
        assert !PairedAt(live, 0);
      }
    }
  }

  /** For a reader of JSON: no cut between entries parts a call from its results, and JSON inputs leave the live log well-formed. */
  lemma JsonReaderKeepsPairing(decode: Decoder, archived: Log, live: Log)
    requires ReadsJson(decode) && Paired(StoreFormat(decode), archived, live)
    ensures WellFormed(archived) && AllPaired(live)
    ensures (archived != [] ==> JsonInputs(live[0])) ==> WellFormed(live)
  {
    hide WellFormed, PairedAt, ReadsJson, Told;
    LiveLogIsWellFormed(StoreFormat(decode), archived, live);
    if archived != [] && JsonInputs(live[0]) {
      JsonInputsAreTold(decode, live[0]);
      ToldFirst(StoreFormat(decode), live[0]);
    }
  }

  lemma ToldFirst(format: Format, e: Entry)
    requires Told(format, e) && format.isUserLine(format.render(e))
    ensures e.UserText?
  {
  }

  // ---------------------------------------------------------------- where a compaction cuts

  /** What the keep decisions read of a file. */
  function LogLines(format: Format, conv: string): seq<CompactDecision.LogLine> {
    var physical := Lines(conv);
    seq(|physical|, i requires 0 <= i < |physical| =>
      CompactDecision.LogLine(|physical[i]|, format.isUserLine(physical[i])))
  }

  /** The best cut moved back to a user line, if it leaves out a line of the file; else the last turns, when there is need. */
  ghost predicate IsKeep(lines: seq<CompactDecision.LogLine>, total: nat, trigger: Trigger, choice: CompactChoice, keep: nat) {
    var best := if 0 < choice.bestK <= |lines| && choice.dpAccepts then CompactDecision.AlignedKeep(lines, choice.bestK) else 0;
    if 0 < best < total then keep == best
    else if trigger != Auto || choice.nearLimit then CompactDecision.IsTurnKeep(lines, choice.keepRatio, keep)
    else keep == 0
  }

  /** A cut in front of one of the file's lines is one in front of a user line. */
  lemma KeptLineIsUser(format: Format, conv: string, total: nat, trigger: Trigger, choice: CompactChoice, keep: nat)
    requires IsKeep(LogLines(format, conv), total, trigger, choice, keep)
    ensures var lines := Lines(conv);
      keep <= |lines| && (0 < keep < |lines| ==> format.isUserLine(lines[|lines| - keep]))
  {
    hide Lines, CompactDecision.RoundedTurns, CompactDecision.Users;
    var lines := LogLines(format, conv);
    assert keep <= |lines| && (0 < keep < |lines| ==> lines[|lines| - keep].isUser);
  }

  lemma KeepIsUnique(lines: seq<CompactDecision.LogLine>, total: nat, trigger: Trigger, choice: CompactChoice, k1: nat, k2: nat)
    requires IsKeep(lines, total, trigger, choice, k1) && IsKeep(lines, total, trigger, choice, k2)
    ensures k1 == k2
  {
    if CompactDecision.IsTurnKeep(lines, choice.keepRatio, k1) && CompactDecision.IsTurnKeep(lines, choice.keepRatio, k2) {
      CompactDecision.TurnCutIsUnique(lines, CompactDecision.RoundedTurns(CompactDecision.Users(lines), choice.keepRatio), k1, k2);
    }
  }

  /** Lines are dropped by this keep, or the plan's own triggers ask for a summary anyway. */
  predicate Compacts(total: nat, trigger: Trigger, choice: CompactChoice, keep: nat) {
    0 < keep && total > 0 && (keep < total || trigger != Auto) && choice.summaryOk
  }

  /** In a file without blank lines the first line behind a cut is the one that the cut is made in front of; none is split. */
  lemma FirstKept(format: Format, file: string, keep: nat, o: nat)
    requires EndsLine(file) && 0 < keep < Newlines(file) && IsEndOffset(file, Newlines(file) - keep, o)
    requires NoBlankLine(file) ==> format.isUserLine(Lines(file)[|Lines(file)| - keep])
    ensures Lines(file[..o]) + Lines(file[o..]) == Lines(file)
    ensures NoBlankLine(file) ==> Lines(file[o..]) != [] && format.isUserLine(Lines(file[o..])[0])
  {
    hide Lines, Newlines, IsEndOffset, EndsLine;
    LinesOfCut(file, Newlines(file) - keep, o);
  }

  class Agent {
    const format: Format
    const store: FileStore
    var forks: seq<SessionCopy>
    ghost var log: Log
    ghost var dropped: Log
    ghost var forkLogs: seq<(Log, Log)>

    ghost function History(): Log
      reads this`log, this`dropped
    {
      dropped + log
    }

    ghost predicate Written()
      reads this`log, this`dropped, store
    {
      Holds(format, SessionCopy(store.conv, store.archive), dropped, log)
    }

    ghost predicate Valid()
      reads this, store
    {
      && Written()
      && Paired(format, dropped, log)
      && ForksValid()
    }

    /** Every fork was taken of files that hold a paired log. */
    ghost predicate ForksValid()
      reads this`forks, this`forkLogs
    {
      && |forks| == |forkLogs|
      && forall i :: 0 <= i < |forks| ==>
           Holds(format, forks[i], forkLogs[i].0, forkLogs[i].1) && Paired(format, forkLogs[i].0, forkLogs[i].1)
    }

    /** A new session, for every decoder its reader may have. */
    constructor (decode: Decoder)
      ensures Valid() && fresh(store) && log == [] && dropped == [] && forks == [] && format == StoreFormat(decode)
    {
      StoreFormatIsFaithful(decode);
      format := StoreFormat(decode);
      store := new FileStore();
      forks, log, dropped, forkLogs := [], [], [], [];
    }

    /** A child session on the files of a fork. */
    constructor Resume(decode: Decoder, files: SessionCopy, ghost archived: Log, ghost live: Log)
      requires Holds(StoreFormat(decode), files, archived, live) && Paired(StoreFormat(decode), archived, live)
      ensures Valid() && fresh(store) && log == live && dropped == archived && format == StoreFormat(decode)
      ensures store.conv == files.conv && store.archive == files.archive
    {
      format := StoreFormat(decode);
      store := new FileStore.On(files.conv, files.archive);
      forks, log, dropped, forkLogs := [], live, archived, [];
    }

    method AddLine(e: Entry)
      requires Written()
      modifies this`log, store
      ensures Written() && log == old(log) + [e]
      ensures store.conv == old(store.conv) + format.render(e) + "\n"
    {
      store.AppendLine(format.render(e));
      RenderAllOne(format, log, e);
      RenderAllOne(format, dropped + log, e);
      OneLineAppend(log, [e]);
      assert dropped + log + [e] == dropped + (log + [e]);
      ghost var file := old(store.conv) + format.render(e) + "\n";
      assert store.archive + file == store.archive + old(store.conv) + format.render(e) + "\n";
      log := log + [e];
    }

    method AddUserMessage(content: string)
      requires Valid()
      modifies this`log, store
      ensures Valid() && |log| == |old(log)| + 1
      ensures History() == old(History()) + [UserText(content)]
    {
      AppendUser(History(), content);
      assert History() + [UserText(content)] == dropped + (log + [UserText(content)]);
      AddLine(UserText(content));
    }

    /** The assistant line and, when tools ran, the line of their results right behind it. */
    method SaveTurn(g: Gathered)
      requires Valid() && log != [] && Answers(g.results, g.calls)
      modifies this`log, store
      ensures Valid() && log != [] && History() == old(History()) + Saved(g)
    {
      SavedIsPaired(History(), g);
      ghost var was := log;
      AddLine(Assistant(g.thinking, g.text, g.calls));
      if |g.results| > 0 {
        AddLine(ToolResults(g.results));
      }
      assert log == was + Saved(g);
      assert dropped + (was + Saved(g)) == dropped + was + Saved(g);
    }

    /** Every result that has arrived is taken; those with a text become user lines, in order. */
    method DrainSubAgentResults(notes: seq<string>) returns (drained: bool)
      requires Valid()
      modifies this`log, store
      ensures Valid() && (old(log) != [] || UserTexts(notes) != [] ==> log != [])
      ensures History() == old(History()) + UserTexts(notes)
      ensures drained == (notes != [])
    {
      hide WellFormed, RenderAll, OneLineLog;
      drained := false;
      var i := 0;
      while i < |notes|
        invariant 0 <= i <= |notes|
        invariant Valid() && |log| == |old(log)| + |UserTexts(notes[..i])|
        invariant History() == old(History()) + UserTexts(notes[..i])
        invariant drained == (i > 0)
      {
        assert notes[..i + 1][..i] == notes[..i];
        if notes[i] != "" {
          AddUserMessage(notes[i]);
        }
        drained := true;
        i := i + 1;
      }
      assert notes[..|notes|] == notes;
    }

    /** What the keep decisions read of the file. */
    method ReadLogLines() returns (lines: seq<CompactDecision.LogLine>)
      ensures lines == LogLines(format, store.conv)
    {
      var physical := Lines(store.conv);
      lines := seq(|physical|, i requires 0 <= i < |physical| =>
        CompactDecision.LogLine(|physical[i]|, format.isUserLine(physical[i])));
    }

    /** How many lines to keep; a cut in front of one of the file's lines is one in front of a user line. */
    method ChooseKeep(trigger: Trigger, choice: CompactChoice, total: nat) returns (keep: nat)
      requires total == Newlines(store.conv)
      ensures IsKeep(LogLines(format, store.conv), total, trigger, choice, keep)
      ensures var lines := Lines(store.conv);
        keep <= |lines| && (0 < keep < |lines| ==> format.isUserLine(lines[|lines| - keep]))
    {
      hide Lines, LogLines, CompactDecision.IsTurnKeep;
      var lines := ReadLogLines();
      keep := 0;
      if 0 < choice.bestK <= |lines| && choice.dpAccepts {
        keep := CompactDecision.AlignedKeep(lines, choice.bestK);
      }
      if keep == 0 || keep >= total {
        if trigger != Auto || choice.nearLimit {
          keep := CompactDecision.TurnKeepForward(lines, choice.keepRatio);
        } else {
          keep := 0;
        }
      }
      KeptLineIsUser(format, store.conv, total, trigger, choice, keep);
    }

    lemma TrimmedLog(keep: nat, o: nat)
      requires Valid() && OneLineLog(log) && 0 < keep < |log|
      requires IsEndOffset(store.conv, |log| - keep, o)
      ensures store.conv[..o] == RenderAll(format, log[..|log| - keep])
      ensures store.conv[o..] == RenderAll(format, log[|log| - keep..])
      ensures RenderAll(format, dropped) + store.conv[..o] == RenderAll(format, dropped + log[..|log| - keep])
      ensures OneLineLog(log[|log| - keep..])
    {
      var cut := |log| - keep;
      CutOfLog(format, log, cut, o);
      RenderAllAppend(format, dropped, log[..cut]);
    }

    /** When every line is an entry, a cut of the file is one of the log. */
    lemma TrimmedHolds(keep: nat, o: nat)
      requires Valid() && OneLineLog(log) && 0 < keep < |log|
      requires o <= |store.conv| && IsEndOffset(store.conv, |log| - keep, o)
      requires keep < |Lines(store.conv)| && format.isUserLine(Lines(store.conv)[|Lines(store.conv)| - keep])
      ensures var cut := |log| - keep;
        && Holds(format, SessionCopy(store.conv[o..], store.archive + store.conv[..o]), dropped + log[..cut], log[cut..])
        && Paired(format, dropped + log[..cut], log[cut..])
        && OneLineLog(log[cut..])
    {
      hide RenderAll, WellFormed, OneLineLog, Faithful, Lines, Newlines, IsEndOffset, NoBlankLine;
      LinesAreEntries();
      TrimmedLog(keep, o);
      MoveBoundary(dropped, log, |log| - keep);
      assert store.archive + store.conv[..o] + store.conv[o..] == store.archive + store.conv;
    }

    /** Otherwise the log says nothing of the boundary between the files. */
    lemma TornHolds(o: nat)
      requires Valid() && !OneLineLog(log) && o <= |store.conv|
      ensures Holds(format, SessionCopy(store.conv[o..], store.archive + store.conv[..o]), dropped, log)
    {
      assert store.archive + store.conv[..o] + store.conv[o..] == store.archive + store.conv;
    }

    lemma LinesAreEntries()
      requires Written() && OneLineLog(log)
      ensures Newlines(store.conv) == |log| && NoBlankLine(store.conv)
      ensures Lines(store.conv) == Rendered(format, log)
    {
      LinesOfLog(format, log);
    }

    lemma FileOfLog()
      requires Written() && OneLineLog(log)
      ensures Faithful(format) && store.conv == RenderAll(format, log)
    {
    }

    /** The file ends with a newline, torn lines or not. */
    lemma FileEndsLine()
      requires Written()
      ensures EndsLine(store.conv)
    {
      if store.conv != "" {
        var lines := Rendered(format, dropped + log);
        JoinEndsLine(lines);
        var file := store.archive + store.conv;
        assert file[|file| - 1] == store.conv[|store.conv| - 1];
      }
    }

    lemma MoveBoundary(a: Log, b: Log, cut: nat)
      requires cut <= |b|
      ensures (a + b[..cut]) + b[cut..] == a + b
    {
    }

    /**
     Summarises the lines in front of the cut and moves exactly those bytes to the
     archive. The history is untouched, and so is every byte of it. No line of the file is split,
     and unless it has blank lines, what is left starts with a line that the reader takes for user
     text, torn entries or not.
     */
    method CompactContext(trigger: Trigger, choice: CompactChoice) returns (compacted: bool, summarised: string, ghost keep: nat)
      requires Valid()
      modifies this`log, this`dropped, store
      ensures Valid() && History() == old(History())
      ensures store.archive + store.conv == old(store.archive + store.conv)
      ensures old(log) != [] ==> log != []
      ensures OneLineLog(old(log)) ==> OneLineLog(log)
      ensures compacted ==> store.archive == old(store.archive) + summarised
      ensures !compacted ==> store.archive == old(store.archive) && store.conv == old(store.conv)
      ensures compacted && trigger == Auto ==>
                0 < Newlines(store.conv) < Newlines(old(store.conv))
      ensures compacted && trigger == Auto && OneLineLog(old(log)) ==> 0 < |log| < |old(log)|
      ensures IsKeep(LogLines(format, old(store.conv)), Newlines(old(store.conv)), trigger, choice, keep)
      ensures compacted == Compacts(Newlines(old(store.conv)), trigger, choice, keep)
      ensures compacted ==> Newlines(store.conv) == if keep < Newlines(old(store.conv)) then keep else Newlines(old(store.conv))
      ensures compacted ==> Lines(summarised) + Lines(store.conv) == Lines(old(store.conv))
      ensures store.conv != old(store.conv) && NoBlankLine(old(store.conv)) ==>
                Lines(store.conv) != [] && format.isUserLine(Lines(store.conv)[0])
    {
      hide Holds, Paired, Lines, IsKeep, LogLines;
      compacted, summarised := false, "";
      var total := store.LineCount();
      var kept := ChooseKeep(trigger, choice, total);
      keep := kept;
      if total == 0 || kept == 0 || (kept >= total && trigger == Auto) { return; }
      summarised := store.HeadTo(total - kept);
      if !choice.summaryOk { return; }
      compacted := true;
      FileEndsLine();
      if kept < total {
        if OneLineLog(log) { LinesAreEntries(); }
        TrimTo(kept, summarised);
        if OneLineLog(old(log)) { LinesAreEntries(); }
      } else {
        EmptyFile();
      }
    }

    /**
     Cuts the file: its first lines go to the archive, as `head` of it. When every line
     is an entry, the cut moves whole entries.
     */
    method TrimTo(keep: nat, ghost head: string)
      requires Valid() && 0 < keep < Newlines(store.conv)
      requires NoBlankLine(store.conv) ==> format.isUserLine(Lines(store.conv)[|Lines(store.conv)| - keep])
      requires head <= store.conv && IsEndOffset(store.conv, Newlines(store.conv) - keep, |head|)
      modifies this`log, this`dropped, store
      ensures Valid() && History() == old(History())
      ensures store.archive + store.conv == old(store.archive + store.conv)
      ensures store.archive == old(store.archive) + head && Newlines(store.conv) == keep
      ensures old(log) != [] ==> log != []
      ensures OneLineLog(old(log)) ==> OneLineLog(log)
      ensures Lines(head) + Lines(store.conv) == Lines(old(store.conv))
      ensures NoBlankLine(old(store.conv)) ==>
                Lines(store.conv) != [] && format.isUserLine(Lines(store.conv)[0])
    {
      hide RenderAll, WellFormed, OneLineLog, Faithful, Lines, Newlines, IsEndOffset, EndsLine, NoBlankLine, Holds, Paired;
      ghost var cut := |log| - keep;
      assert store.conv[..|head|] == head;
      FileEndsLine();
      FirstKept(format, store.conv, keep, |head|);
      ghost var whole := OneLineLog(log);
      if whole {
        LinesAreEntries();
        TrimmedHolds(keep, |head|);
        MoveBoundary(dropped, log, cut);
      } else {
        TornHolds(|head|);
      }
      store.TrimTail(keep);
      if whole {
        dropped, log := dropped + log[..cut], log[cut..];
      }
    }

    /** Copies the session while the calling turn is still unsaved. */
    method ForkSession()
      requires Valid()
      modifies this`forks, this`forkLogs
      ensures Valid() && forks == old(forks) + [SessionCopy(store.conv, store.archive)]
      ensures forkLogs == old(forkLogs) + [(dropped, log)]
    {
      forks := forks + [SessionCopy(store.conv, store.archive)];
      forkLogs := forkLogs + [(dropped, log)];
    }

    /** What a tool does to the session besides producing its output. */
    method Dispatch(effect: Effect)
      requires Valid() && log != []
      modifies this, store
      ensures Valid() && log != [] && History() == old(History())
      ensures forks == old(forks) || |forks| == |old(forks)| + 1
    {
      match effect
      case Plain =>
      case Fork => ForkSession();
      case Plan(trigger, choice) =>
        var compacted, summarised, keep := CompactContext(trigger, choice);
    }

    /** The event loop of one reply: tools run as their calls arrive, and nothing is saved yet. */
    method ReadReply(events: seq<StreamEvent>, interruptAt: nat) returns (g: Gathered)
      requires Valid() && log != []
      modifies this, store
      ensures Valid() && log != [] && History() == old(History())
      ensures Answers(g.results, g.calls)
      ensures interruptAt > |events| ==> g == GatherAll(events)
    {
      var text, thinking, stopReason := "", "", "";
      var calls: seq<Call> := [];
      var results: seq<ToolResult> := [];
      var i := 0;
      while i < |events| && i < interruptAt
        invariant 0 <= i <= |events| && i <= interruptAt
        invariant Valid() && log != [] && History() == old(History())
        invariant Gathered(text, thinking, calls, results, stopReason) == GatherAll(events[..i])
        invariant Answers(results, calls)
        decreases |events| - i
      {
        GatherNext(events, i);
        match events[i] {
          case Text(delta) => text := text + delta;
          case Thinking(delta) => thinking := thinking + delta;
          case ToolCall(call, effect, output, convOutput) =>
            calls := calls + [call];
            Dispatch(effect);
            results := results + [ToolResult(call.id, if convOutput != "" then convOutput else output)];
          case Stop(reason) => stopReason := reason;
          case Error(_) => stopReason := "error";
          case Retry => text, thinking, calls, results := "", "", [], [];
          case Other =>
        }
        i := i + 1;
      }
      if interruptAt > |events| { assert events[..i] == events; }
      g := Gathered(text, thinking, calls, results, stopReason);
    }

    /**
     One model call and what follows it. The gathered reply is saved with its
     results, or not at all; what the turn adds to the history is what the script says.
     */
    method Turn(env: TurnEnv) returns (end: TurnEnd)
      requires Valid() && log != []
      modifies this, store
      ensures Valid() && log != []
      ensures History() == old(History()) + TurnWrites(env).0 == old(History()) + Transcript.TurnLines(env)
      ensures end == TurnWrites(env).1 && (end == NextTurn <==> Transcript.GoesOn(env))
    {
      Transcript.TurnIsTold(env);
      var drained := DrainSubAgentResults(env.notesBefore);
      var compacted, summarised, keep := CompactContext(Auto, env.auto);
      if !env.requestOk { return Fatal; }
      var g := ReadReply(env.events, env.interruptAt);
      if env.interruptAt <= |env.events| { return Interrupted; }
      if FatalStop(g.stop) { return Fatal; }
      SaveTurn(g);
      Associate(old(History()), UserTexts(env.notesBefore), Saved(g));
      if ToolStop(g.stop) { return NextTurn; }
      drained := DrainSubAgentResults(env.notesAfter);
      Associate(old(History()), UserTexts(env.notesBefore) + Saved(g), UserTexts(env.notesAfter));
      end := if drained then NextTurn else PhaseDone;
    }

    /** The turns of one phase, under its own budget. */
    method TurnLoop(turns: seq<TurnEnv>, maxTurns: nat) returns (end: TurnEnd)
      requires Valid() && log != []
      modifies this, store
      ensures Valid() && log != []
      ensures History() == old(History()) + TurnsWrite(turns, maxTurns).0
      ensures History() == old(History()) + Transcript.TurnsLines(Transcript.Taken(turns, maxTurns))
      ensures end == TurnsWrite(turns, maxTurns).1
    {
      hide TurnsWrite, TurnWrites, Transcript.TurnsLines, Transcript.Taken, Transcript.TurnLines, Transcript.GoesOn;
      Transcript.TurnsAreTold(turns, maxTurns);
      var turn := 0;
      assert turns[0..] == turns;
      while turn < maxTurns && turn < |turns|
        invariant 0 <= turn <= maxTurns && turn <= |turns|
        invariant Valid() && log != []
        invariant old(History()) + TurnsWrite(turns, maxTurns).0 == History() + TurnsWrite(turns[turn..], maxTurns - turn).0
        invariant TurnsWrite(turns, maxTurns).1 == TurnsWrite(turns[turn..], maxTurns - turn).1
        decreases |turns| - turn
      {
        ghost var before := History();
        end := Turn(turns[turn]);
        TurnsWriteNext(turns, turn, maxTurns - turn);
        if end != NextTurn { return; }
        Associate(before, TurnWrites(turns[turn]).0, TurnsWrite(turns[turn + 1..], maxTurns - turn - 1).0);
        turn := turn + 1;
      }
      TurnsWriteDone(turns[turn..], maxTurns - turn);
      end := PhaseDone;
    }

    lemma TurnsWriteDone(turns: seq<TurnEnv>, budget: nat)
      requires turns == [] || budget == 0
      ensures TurnsWrite(turns, budget) == ([], PhaseDone)
    {
    }

    lemma TurnsWriteNext(turns: seq<TurnEnv>, i: nat, budget: nat)
      requires i < |turns| && budget > 0
      ensures TurnWrites(turns[i]).1 != NextTurn ==> TurnsWrite(turns[i..], budget) == TurnWrites(turns[i])
      ensures TurnWrites(turns[i]).1 == NextTurn ==>
                && TurnsWrite(turns[i..], budget).0 == TurnWrites(turns[i]).0 + TurnsWrite(turns[i + 1..], budget - 1).0
                && TurnsWrite(turns[i..], budget).1 == TurnsWrite(turns[i + 1..], budget - 1).1
    {
      assert turns[i..][1..] == turns[i + 1..];
    }

    /**
     The whole run, for every script, whatever its tool inputs look like, and for every reader.
     The history is extended by exactly the entries the script writes, and stays paired; archive
     and conversation together hold its bytes, so compactions lose and reorder nothing; and they
     read back entry by entry exactly when no saved tool input holds a newline. Then the two
     files hold whole entries, the live ones from a line on that the reader takes for user text;
     they are a well-formed log by themselves exactly when it is right about that line.
     */
    method RunLoop(phases: seq<PhaseEnv>, maxTurns: nat)
      requires Valid()
      modifies this, store
      ensures Valid() && WellFormed(History())
      ensures History() == old(History()) + RunWrites(phases, maxTurns)
      ensures History() == old(History()) + Transcript.RunLines(Transcript.PhasesTaken(phases, maxTurns), maxTurns)
      ensures store.archive + store.conv == RenderAll(format, History())
      ensures Lines(store.archive + store.conv) == Rendered(format, History()) <==>
              OneLineLog(old(History())) && OneLineLog(RunWrites(phases, maxTurns))
      ensures OneLineLog(History()) ==>
                && Lines(store.archive) == Rendered(format, dropped)
                && Lines(store.conv) == Rendered(format, log)
      ensures dropped != [] ==> log != [] && format.isUserLine(format.render(log[0]))
      ensures WellFormed(log) <==> dropped == [] || Told(format, log[0])
    {
      hide Holds, Paired, RenderAll, TurnsWrite, WellFormed, UserTexts, OneLineLog, Lines, Rendered, Told;
      hide Transcript.TurnsLines, Transcript.Taken, Transcript.RunLines, Transcript.PhasesTaken;
      Transcript.RunIsTold(phases, maxTurns);
      var p := 0;
      while p < |phases|
        invariant 0 <= p <= |phases|
        invariant Valid()
        invariant old(History()) + RunWrites(phases, maxTurns) == History() + RunWrites(phases[p..], maxTurns)
      {
        var env := phases[p];
        assert phases[p..][0] == env && phases[p..][1..] == phases[p + 1..];
        ghost var before := History();
        if env.kind == Notify {
          var drained := DrainSubAgentResults(env.notes);
          if !drained { EmptyNotes(History()); break; }
          NotesAreWritten(env.notes);
        } else {
          AddUserMessage(env.input);
        }
        var end := TurnLoop(env.turns, maxTurns);
        ghost var w := TurnsWrite(env.turns, maxTurns).0;
        Associate(before, PhaseOpens(env), w);
        if end == Interrupted {
          assert RunWrites(phases[p..], maxTurns) == PhaseOpens(env) + w;
          break;
        }
        Associate(before, PhaseOpens(env) + w, RunWrites(phases[p + 1..], maxTurns));
        p := p + 1;
      }
      ReadBack();
      OneLineAppend(old(History()), RunWrites(phases, maxTurns));
    }

    lemma EmptyNotes(history: Log)
      ensures history + UserTexts([]) == history
    {
    }

    /** What the files give back. */
    lemma ReadBack()
      requires Valid()
      ensures WellFormed(History())
      ensures store.archive + store.conv == RenderAll(format, History())
      ensures Lines(store.archive + store.conv) == Rendered(format, History()) <==> OneLineLog(History())
      ensures OneLineLog(History()) ==>
                && Lines(store.archive) == Rendered(format, dropped)
                && Lines(store.conv) == Rendered(format, log)
      ensures dropped != [] ==> log != [] && format.isUserLine(format.render(log[0]))
      ensures WellFormed(log) <==> dropped == [] || Told(format, log[0])
    {
      hide RenderAll, Rendered, OneLineLog, Lines, Faithful, WellFormed, Told;
      LiveLogIsWellFormed(format, dropped, log);
      ReadsBackIff(format, History());
      OneLineAppend(dropped, log);
      if OneLineLog(History()) {
        LinesOfLog(format, dropped);
        LinesOfLog(format, log);
      }
    }
  }

  // ---------------------------------------------------------------- a cut at the wrong line

  /** A reply with one call whose input says role and content again. */
  function Misleading(id: string, name: string, output: string): Gathered {
    Gathered("", "", [Call(id, name, SECOND_ROLE)], [ToolResult(id, output)], "tool_use")
  }

  lemma MisleadingIsOneLine(text: string, id: string, name: string, output: string)
    ensures OneLineLog([UserText(text)] + Saved(Misleading(id, name, output)))
  {
    hide SECOND_ROLE;
    SecondRoleIsOneLine();
  }

  /** Three lines, of which the second is taken for user text: the best cut in front of it is taken. */
  lemma CutIsTaken(format: Format, conv: string, choice: CompactChoice, log: Log)
    requires Faithful(format) && OneLineLog(log) && conv == RenderAll(format, log) && |log| == 3
    requires format.isUserLine(format.render(log[1])) && choice.bestK == 2 && choice.dpAccepts
    ensures forall keep: nat :: IsKeep(LogLines(format, conv), Newlines(conv), Auto, choice, keep) ==> keep == 2
  {
    hide RenderAll, Lines, OneLineLog;
    LinesOfLog(format, log);
    assert LogLines(format, conv)[1].isUser;
  }

  /**
   For every reader of JSON that does not refuse the line, a compaction in front of such a reply is
   possible, and the live log then starts with an assistant line.
   */
  method CutInFrontOfReply(decode: Decoder, text: string, id: string, name: string, output: string) returns (agent: Agent)
    requires ReadsJson(decode)
    requires decode(ConversationLog.Render(Saved(Misleading(id, name, output))[0])).Some?
    ensures agent.Valid() && agent.format == StoreFormat(decode)
    ensures agent.dropped == [UserText(text)] && agent.log == Saved(Misleading(id, name, output))
    ensures !WellFormed(agent.log)
  {
    hide Holds, Paired, WellFormed, RenderAll, OneLineLog, Lines, IsKeep, LogLines, ReadsJson, Told, SECOND_ROLE, ConversationLog.Render;
    var g := Misleading(id, name, output);
    agent := new Agent(decode);
    agent.AddUserMessage(text);
    assert agent.History() == agent.log == [UserText(text)];
    agent.SaveTurn(g);
    assert agent.History() == agent.log == [UserText(text)] + Saved(g);
    MisleadingIsOneLine(text, id, name, output);
    SecondRoleIsNotTold(decode, "", "", id, name);
    ReplyIsTaken(agent.format, Saved(g)[0]);
    var choice := CompactChoice(2, true, false, 0.5, true);
    agent.LinesAreEntries();
    agent.FileOfLog();
    CutIsTaken(agent.format, agent.store.conv, choice, agent.log);
    ghost var before := agent.History();
    var compacted, summarised, keep := agent.CompactContext(Auto, choice);
    agent.LinesAreEntries();
    assert agent.History() == before && |agent.log| == 2;
    assert agent.dropped == before[..1] && agent.log == before[1..];
    NotUserFirst(agent.log);
  }

  lemma NotUserFirst(log: Log)
    requires log != [] && !log[0].UserText?
    ensures !WellFormed(log)
  {
  }

  lemma ReplyIsTaken(format: Format, e: Entry)
    requires !Told(format, e) && !e.UserText?
    ensures format.isUserLine(format.render(e))
  {
  }
}
