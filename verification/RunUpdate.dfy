/**
 The operator's update: which targets it accepts, and what the compose file names
 however the run ends.
 */
module RunUpdate {
  import opened Values
  import opened Versions
  import opened ComposeText

  const EXIT_OK := 0
  const EXIT_FAILED_ROLLED_BACK := 1
  const EXIT_FAILED_ROLLBACK_FAILED := 2
  const EXIT_PREFLIGHT_REFUSED := 3
  const SIGTERM_CODE := 143

  datatype Manifest = Manifest(latest: Option<string>, minSupported: Option<string>, noRollbackFrom: seq<string>)

  /** resolve_target: `--to` wins, and only a valid tag comes out. */
  function ResolveTarget(explicitTo: Option<string>, manifest: Option<Manifest>): (r: Option<string>)
    ensures r.Some? ==> IsValidImageTag(r.value)
  {
    if explicitTo.Some? && explicitTo.value != "" then
      (if IsValidImageTag(explicitTo.value) then explicitTo else None)
    else if manifest.Some? && manifest.value.latest.Some? && IsValidImageTag(manifest.value.latest.value) then
      manifest.value.latest
    else None
  }

  /** no_rollback_blocked; None is "unknown". */
  function NoRollbackBlocked(manifest: Option<Manifest>, current: Option<string>, target: string): Option<bool> {
    if manifest.None? || current.None? then None
    else Some(current.value + "->" + target in manifest.value.noRollbackFrom)
  }

  function Floor(manifest: Option<Manifest>): Option<string> {
    if manifest.Some? then manifest.value.minSupported else None
  }

  /** The operator's own choice is taken whatever the manifest says, or nothing is; without one the manifest's
      latest is. */
  lemma ExplicitWins(tag: string, manifest: Option<Manifest>, latest: string)
    ensures tag != "" ==> ResolveTarget(Some(tag), manifest) == if IsValidImageTag(tag) then Some(tag) else None
    ensures manifest.Some? && manifest.value.latest == Some(latest) && IsValidImageTag(latest) ==>
      ResolveTarget(None, manifest) == Some(latest) == ResolveTarget(Some(""), manifest)
    ensures manifest.None? || manifest.value.latest.None? ==> ResolveTarget(None, manifest) == None
  {
    hide IsValidImageTag;
  }

  /** What an update may do to a node that runs `running`: never below the floor; backwards only when asked for
      explicitly; over a move that is, or may be, without a way back only when confirmed. */
  predicate Permitted(manifest: Option<Manifest>, target: Option<string>, resolved: string,
                      running: Option<string>, confirmed: bool)
  {
    && BelowFloor(Some(resolved), Floor(manifest)) != Some(true)
    && (target.None? ==> IsDowngrade(running, Some(resolved)) != Some(true))
    && (confirmed || NoRollbackBlocked(manifest, running, resolved) == Some(false))
  }

  /** The same in the manifest's words: a move is listed as "current->target". */
  lemma PermittedIff(manifest: Option<Manifest>, target: Option<string>, resolved: string, running: Option<string>,
                     confirmed: bool)
    ensures Permitted(manifest, target, resolved, running, confirmed) <==>
      && (manifest.Some? ==> BelowFloor(Some(resolved), manifest.value.minSupported) != Some(true))
      && !(target.None? && IsDowngrade(running, Some(resolved)) == Some(true))
      && (confirmed || (manifest.Some? && running.Some?
                        && running.value + ("->" + resolved) !in manifest.value.noRollbackFrom))
  {
    hide VersionTuple;
    if running.Some? {
      assert running.value + ("->" + resolved) == running.value + "->" + resolved;
    }
  }

  // ---- What a run meets --------------------------------------------------------------------

  /** What cuts a step short: an exception or Ctrl-C; a SIGKILL or a power cut; a SIGTERM, whose handler writes the
      references back before it exits. */
  datatype Cut = Throws | Kill | Sigterm(handler: Write)

  /** A write that restores the references: through, or cut short before or after the file was replaced. */
  datatype Write = Through | Broken(replaced: bool, cut: Cut)

  datatype Call = Call(ok: bool, cut: Option<Cut>)

  const FINE := Call(true, None)

  datatype Run = Run(
    target: Option<string>,
    checkOnly: bool,
    confirmed: bool,
    manifest: Option<Manifest>,
    hasId: bool,
    namedVolume: bool,
    current: Option<string>,   // version read before the lock
    alreadyRuns: bool,
    lockFree: bool,
    locked: Option<string>,    // version read under the lock
    tagWrite: bool,            // the retagging write replaced the file, or raised
    gap: Option<Cut>,          // between the retag and the guarded region; a SIGTERM before its handler is in is a kill
    pull: Call,
    up: Call,
    gate: Call,
    afterGate: Option<Cut>,    // once the gate has passed, before the return
    rollbackWrite: Write,
    rollbackUp: Call,
    rollbackHealth: Call,
    lastWrite: Write)          // the finally block's

  datatype Exit = Returned(code: int) | Raised | Killed

  /** The text a retag and the restore of what it captured leave. */
  function Restored(text: string, target: string): string {
    Rewritten(Rewritten(text, Retag(target)), Refs(Captured(Lines(text))))
  }

  // ---- Whether the references are written back ----------------------------------------------

  /** The write replaced the file, or the handler of a SIGTERM inside it did. */
  predicate Replaces(w: Write) {
    w.Through? || w.replaced || CutReplaces(w.cut)
  }

  predicate CutReplaces(c: Cut) {
    c.Sigterm? && Replaces(c.handler)
  }

  /** The process is gone, and the finally block with it. */
  predicate Kills(c: Cut) {
    c.Kill? || (c.Sigterm? && c.handler.Broken? && Kills(c.handler.cut))
  }

  predicate Passes(run: Run) {
    run.gap.None? && run.pull == FINE && run.up == FINE && run.gate == FINE
  }

  /** The guarded block comes to its _rollback. */
  predicate RollsBack(run: Run) {
    run.pull == FINE && (run.up == Call(false, None) || (run.up == FINE && run.gate == Call(false, None)))
  }

  /** What cuts the guarded block short, if anything does before the gate has passed. */
  function CutOf(run: Run): Option<Cut> {
    if run.pull.cut.Some? || !run.pull.ok then run.pull.cut
    else if run.up.cut.Some? then run.up.cut
    else if run.up.ok && (run.gate.cut.Some? || run.gate.ok) then run.gate.cut
    else if run.rollbackWrite.Broken? then Some(run.rollbackWrite.cut)
    else if run.rollbackUp.cut.Some? || !run.rollbackUp.ok then run.rollbackUp.cut
    else run.rollbackHealth.cut
  }

  /** Some restoring write of the run went through: the rollback's, a SIGTERM handler's, or the last one, to which
      every run comes that is not killed first. */
  predicate WrittenBack(run: Run) {
    if run.gap.Some? then CutReplaces(run.gap.value)
    else
      || (RollsBack(run) && Replaces(run.rollbackWrite))
      || (CutOf(run).Some? && CutReplaces(CutOf(run).value))
      || ((CutOf(run).None? || !Kills(CutOf(run).value)) && Replaces(run.lastWrite))
  }

  /** A run that is back where it was: the pull failed and nothing else was done, or the rollback came up healthy on the
      references it wrote. */
  predicate CleanRollback(run: Run) {
    || run.pull == Call(false, None)
    || (&& run.pull == Call(true, None)
        && (run.up == Call(false, None) || (run.up == Call(true, None) && run.gate == Call(false, None)))
        && run.rollbackWrite == Through && run.rollbackUp == Call(true, None) && run.rollbackHealth == Call(true, None))
  }

  class Updater {
    const file: ComposeFile
    const run: Run
    var gatePassed: bool

    constructor (file: ComposeFile, run: Run)
      ensures this.file == file && this.run == run && !gatePassed
    {
      this.file, this.run, gatePassed := file, run, false;
    }

    /** A restoring write; None is that nothing cut it short. */
    method WriteBack(refs: map<string, string>, w: Write) returns (exit: Option<Exit>)
      requires !gatePassed && OwnRefs(refs)
      modifies file
      ensures file.text == if Replaces(w) then Rewritten(old(file.text), Refs(refs)) else old(file.text)
      ensures exit.None? <==> w.Through?
      ensures exit.Some? ==> (exit.value.Killed? <==> Kills(w.cut))
      ensures exit.Some? && exit.value.Returned? ==> exit.value == Returned(SIGTERM_CODE) && Replaces(w)
      decreases w
    {
      hide Rewritten, OwnRefs;
      file.SetImageRefs(refs, w.Through? || w.replaced);
      if w.Through? {
        return None;
      }
      RestoreTwice(old(file.text), refs);
      var cut := CutShort(refs, w.cut);
      return Some(cut);
    }

    /** How a step ends that is cut short: the SIGTERM handler disarms first. */
    method CutShort(refs: map<string, string>, c: Cut) returns (exit: Exit)
      requires OwnRefs(refs)
      modifies file
      ensures file.text ==
        if !gatePassed && CutReplaces(c) then Rewritten(old(file.text), Refs(refs)) else old(file.text)
      ensures !gatePassed ==> (exit.Killed? <==> Kills(c))
      ensures !gatePassed && exit.Returned? ==> exit == Returned(SIGTERM_CODE) && CutReplaces(c)
      ensures gatePassed ==>
        exit == if c.Sigterm? then Returned(EXIT_OK) else if c.Kill? then Killed else Raised
      decreases c
    {
      hide Rewritten, OwnRefs;
      match c {
        case Throws => return Raised;
        case Kill => return Killed;
        case Sigterm(handler) =>
          if gatePassed {
            return Returned(EXIT_OK);
          }
          var broken := WriteBack(refs, handler);
          return if broken.Some? then broken.value else Returned(SIGTERM_CODE);
      }
    }

    /** _rollback: EXIT_FAILED_ROLLED_BACK only for a node that came up healthy on the prior references. */
    method Rollback(refs: map<string, string>) returns (exit: Exit)
      requires !gatePassed && OwnRefs(refs) && RollsBack(run)
      modifies file
      ensures file.text ==
        if Replaces(run.rollbackWrite) || (CutOf(run).Some? && CutReplaces(CutOf(run).value))
        then Rewritten(old(file.text), Refs(refs)) else old(file.text)
      ensures exit != Returned(EXIT_OK) && (exit.Killed? <==> CutOf(run).Some? && Kills(CutOf(run).value))
      ensures exit == Returned(1) <==>
        run.rollbackWrite.Through? && run.rollbackUp == Call(true, None) && run.rollbackHealth == Call(true, None)
      ensures CutOf(run).None? ==> exit == Returned(1) || exit == Returned(2)
      ensures exit.Returned? ==> exit.code in {1, 2, 143}
    {
      hide Rewritten, OwnRefs, Replaces, CutReplaces, Kills;
      ghost var before := file.text;
      ReplacedByCut(run.rollbackWrite);
      RestoreTwice(before, refs);
      var broken := WriteBack(refs, run.rollbackWrite);
      if broken.Some? {
        return broken.value;
      }
      if run.rollbackUp.cut.Some? {
        exit := CutShort(refs, run.rollbackUp.cut.value);
        return exit;
      }
      if run.rollbackUp.ok {
        if run.rollbackHealth.cut.Some? {
          exit := CutShort(refs, run.rollbackHealth.cut.value);
          return exit;
        }
        if run.rollbackHealth.ok {
          return Returned(EXIT_FAILED_ROLLED_BACK);
        }
      }
      return Returned(EXIT_FAILED_ROLLBACK_FAILED);
    }

    /** The guarded try block. */
    method Mutate(refs: map<string, string>) returns (exit: Exit)
      requires !gatePassed && OwnRefs(refs) && run.gap.None?
      modifies this, file
      ensures gatePassed <==> Passes(run)
      ensures gatePassed ==> file.text == old(file.text)
      ensures gatePassed ==>
        exit == if run.afterGate.None? || run.afterGate.value.Sigterm? then Returned(EXIT_OK)
                else if run.afterGate.value.Kill? then Killed else Raised
      ensures !gatePassed ==>
        file.text ==
          if (RollsBack(run) && Replaces(run.rollbackWrite)) || (CutOf(run).Some? && CutReplaces(CutOf(run).value))
          then Rewritten(old(file.text), Refs(refs)) else old(file.text)
      ensures !gatePassed ==>
        exit != Returned(EXIT_OK) && (exit.Killed? <==> CutOf(run).Some? && Kills(CutOf(run).value))
      ensures !gatePassed ==> (exit == Returned(1) <==> CleanRollback(run))
      ensures !gatePassed && CutOf(run).None? ==> exit == Returned(1) || exit == Returned(2)
    {
      hide Rewritten, OwnRefs, Replaces, CutReplaces, Kills;
      if run.pull.cut.Some? {
        exit := CutShort(refs, run.pull.cut.value);
        return exit;
      }
      if !run.pull.ok {
        return Returned(EXIT_FAILED_ROLLED_BACK);
      }
      if run.up.cut.Some? {
        exit := CutShort(refs, run.up.cut.value);
        return exit;
      }
      if !run.up.ok {
        exit := Rollback(refs);
        return exit;
      }
      if run.gate.cut.Some? {
        exit := CutShort(refs, run.gate.cut.value);
        return exit;
      }
      if run.gate.ok {
        gatePassed := true;
        if run.afterGate.Some? {
          exit := CutShort(refs, run.afterGate.value);
          return exit;
        }
        return Returned(EXIT_OK);
      }
      exit := Rollback(refs);
    }

    /** _disarm in the finally block, which a cut takes over from what the block was about to return. */
    method Disarm(refs: map<string, string>, ending: Exit) returns (exit: Exit)
      requires OwnRefs(refs) && !ending.Killed?
      modifies file
      ensures file.text ==
        if !gatePassed && Replaces(run.lastWrite) then Rewritten(old(file.text), Refs(refs)) else old(file.text)
      ensures gatePassed || run.lastWrite.Through? ==> exit == ending
      ensures !gatePassed && !run.lastWrite.Through? ==> exit != Returned(EXIT_OK)
      ensures !gatePassed && exit.Returned? ==> Replaces(run.lastWrite)
    {
      hide Rewritten, OwnRefs;
      exit := ending;
      if !gatePassed {
        var broken := WriteBack(refs, run.lastWrite);
        if broken.Some? {
          exit := broken.value;
        }
      }
    }

    /** The retag and everything after it: the references come back exactly when some restoring write went through,
        and whenever the run ends with an exit code and without a passed gate, one has. */
    method Apply(resolved: string) returns (exit: Exit, retagged: bool)
      requires IsValidImageTag(resolved) && !gatePassed
      modifies this, file
      ensures retagged == run.tagWrite && (!retagged ==> file.text == old(file.text) && exit.Raised? && !gatePassed)
      ensures retagged ==> (gatePassed <==> Passes(run))
      ensures retagged ==>
        file.text == if gatePassed || !WrittenBack(run) then Rewritten(old(file.text), Retag(resolved))
                     else Restored(old(file.text), resolved)
      ensures retagged && exit.Returned? ==> gatePassed || WrittenBack(run)
      ensures exit == Returned(EXIT_OK) ==> gatePassed
      ensures retagged && !gatePassed && run.gap.None? && run.lastWrite.Through? ==>
        && (exit == Returned(1) <==> CleanRollback(run))
        && (CutOf(run).None? ==> exit == Returned(1) || exit == Returned(2))
      ensures gatePassed && (run.afterGate.None? || run.afterGate.value.Sigterm?) ==> exit == Returned(EXIT_OK)
    {
      hide Rewritten, Captured, Lines, IsValidImageTag, OwnRefs, Replaces, CutReplaces, Kills, RollsBack;
      ghost var before := file.text;
      var captured := file.SetImageTag(resolved, run.tagWrite);
      if captured.None? {
        return Raised, false;
      }
      retagged := true;
      var refs := captured.value;
      CapturedAreOwn(Lines(before));
      if run.gap.Some? {
        exit := CutShort(refs, run.gap.value);
        return exit, retagged;
      }
      ghost var tagged := file.text;
      RestoreTwice(tagged, refs);
      exit := Mutate(refs);
      if !exit.Killed? {
        exit := Disarm(refs, exit);
      }
    }
  }

  lemma ReplacedByCut(w: Write)
    ensures w.Broken? && CutReplaces(w.cut) ==> Replaces(w)
  {
  }

  /** What a write that was cut short has done, and what has ended the process. */
  lemma WritesAre(h: Write)
    ensures Replaces(Through) && !Kills(Throws) && Kills(Kill) && !Kills(Sigterm(Through))
    ensures forall c :: Replaces(Broken(true, c))
    ensures !Replaces(Broken(false, Throws)) && !Replaces(Broken(false, Kill))
    ensures Replaces(Broken(false, Sigterm(h))) <==> Replaces(h)
    ensures h.Broken? ==> (Kills(Sigterm(h)) <==> Kills(h.cut))
  {
  }

  /** The restoring writes a run can come to: of a SIGTERM's handler, in the pull, the start or the gate, and of the
      rollback after a start or a gate that failed. */
  lemma EachWriteSuffices(run: Run)
    requires run.gap.None?
    requires
      || run.pull.cut == Some(Sigterm(Through))
      || (run.pull == Call(true, None) && run.up.cut == Some(Sigterm(Through)))
      || (run.pull == Call(true, None) && run.up == Call(true, None) && run.gate.cut == Some(Sigterm(Through)))
      || (run.pull == Call(true, None) && run.up == Call(false, None) && run.rollbackWrite == Through)
      || (run.pull == Call(true, None) && run.up == Call(true, None) && run.gate == Call(false, None)
          && run.rollbackWrite == Through)
    ensures WrittenBack(run) && !Passes(run)
  {
  }

  /** Where nothing is killed and the last write goes through, every run without a passed gate is written back. */
  lemma LastWriteSuffices(run: Run)
    requires run.gap.None? && run.lastWrite.Through? && (CutOf(run).Some? ==> !Kills(CutOf(run).value))
    ensures WrittenBack(run)
  {
    hide Kills, CutOf;
  }

  /** A disk that the pull has filled: the pull fails, the block is about to return a clean rollback, the restoring
      write of the finally block raises, and the file keeps the target although no gate has passed. The same of a
      Ctrl-C during the pull and a second one during that write. */
  lemma FullDiskKeepsTarget(run: Run)
    requires run.gap.None? && (run.pull == Call(false, None) || run.pull.cut == Some(Throws))
    requires run.lastWrite == Broken(false, Throws)
    ensures !Passes(run) && !WrittenBack(run)
  {
  }

  /** So does a kill inside the guarded block before any write of the rollback has gone through. */
  lemma KilledKeepsTarget(run: Run)
    requires run.gap.None? && CutOf(run) == Some(Kill) && (RollsBack(run) ==> !Replaces(run.rollbackWrite))
    ensures !WrittenBack(run)
  {
    hide CutOf, RollsBack, Replaces;
  }

  /** run_update. The file is touched only for a target the node may be moved to from the version it runs under
      the lock. Unless the gate passed it ends with the references it had exactly when some restoring write went
      through, and so whenever the run ends with an exit code: only an exception or a kill leaves the target. */
  method RunUpdate(file: ComposeFile, run: Run) returns (exit: Exit, retagged: bool, gatePassed: bool)
    modifies file
    ensures retagged ==>
      var resolved := ResolveTarget(run.target, run.manifest);
      && resolved.Some? && !run.checkOnly && run.lockFree
      && Permitted(run.manifest, run.target, resolved.value, run.locked, run.confirmed)
      && (gatePassed <==> run.gap.None? && run.pull == run.up == run.gate == Call(true, None))
      && file.text == if gatePassed || !WrittenBack(run)
         then Rewritten(old(file.text), Retag(resolved.value)) else Restored(old(file.text), resolved.value)
    ensures retagged && exit.Returned? ==> gatePassed || WrittenBack(run)
    ensures !retagged ==> file.text == old(file.text) && !gatePassed
    ensures !retagged ==> exit == Returned(0) || exit == Returned(3) || exit == Raised
    ensures exit == Returned(0) ==> gatePassed || (!retagged && (run.checkOnly || run.alreadyRuns))
    ensures gatePassed && (run.afterGate.None? || run.afterGate.value.Sigterm?) ==> exit == Returned(0)
    ensures retagged && !gatePassed && run.gap.None? && run.lastWrite.Through? ==>
      && (exit == Returned(1) <==> CleanRollback(run))
      && (CutOf(run).None? ==> exit == Returned(1) || exit == Returned(2))
    ensures var resolved := ResolveTarget(run.target, run.manifest);
      (resolved.Some? && !run.checkOnly && run.hasId && run.namedVolume && !run.alreadyRuns && run.lockFree
       && Permitted(run.manifest, run.target, resolved.value, run.current, run.confirmed)
       && Permitted(run.manifest, run.target, resolved.value, run.locked, run.confirmed) && run.tagWrite) <==> retagged
  {
    hide Rewritten, Captured, Lines, VersionTuple, Restored, IsValidImageTag, WrittenBack;
    var resolved := ResolveTarget(run.target, run.manifest);
    if resolved.None? {
      return Returned(EXIT_PREFLIGHT_REFUSED), false, false;
    }
    var goal := resolved.value;
    var downgrade := IsDowngrade(run.current, resolved);
    if run.checkOnly {
      return Returned(EXIT_OK), false, false;
    }
    if !run.hasId || !run.namedVolume {
      return Returned(EXIT_PREFLIGHT_REFUSED), false, false;
    }
    if BelowFloor(resolved, Floor(run.manifest)) == Some(true) {
      return Returned(EXIT_PREFLIGHT_REFUSED), false, false;
    }
    if downgrade == Some(true) && run.target.None? {
      return Returned(EXIT_PREFLIGHT_REFUSED), false, false;
    }
    if NoRollbackBlocked(run.manifest, run.current, goal) != Some(false) && !run.confirmed {
      return Returned(EXIT_PREFLIGHT_REFUSED), false, false;
    }
    if run.alreadyRuns {
      return Returned(EXIT_OK), false, false;
    }
    if !run.lockFree {
      return Returned(EXIT_PREFLIGHT_REFUSED), false, false;
    }
    if run.locked != run.current {
      if IsDowngrade(run.locked, resolved) == Some(true) && run.target.None? {
        return Returned(EXIT_PREFLIGHT_REFUSED), false, false;
      }
      if NoRollbackBlocked(run.manifest, run.locked, goal) != Some(false) && !run.confirmed {
        return Returned(EXIT_PREFLIGHT_REFUSED), false, false;
      }
    }
    var updater := new Updater(file, run);
    exit, retagged := updater.Apply(goal);
    return exit, retagged, updater.gatePassed;
  }

  /** A guarded run that fails gives an ordinary file back untouched: when every image line is bare and every
      repository has one reference, to the letter. */
  lemma FailureIsInvisibleIff(text: string, target: string)
    requires IsValidImageTag(target)
    ensures var lines := Lines(text);
      Restored(text, target) == text <==>
        (forall i, j :: 0 <= i < |lines| && 0 <= j < |lines|
                        && Parse(Body(lines[i])).Some? && Parse(Body(lines[j])).Some? ==>
          var p, q := Parse(Body(lines[i])).value, Parse(Body(lines[j])).value;
          p.trail == "" && (p.repo == q.repo ==> p.suffix == q.suffix))
  {
    hide Parse, Lines, Body, Rewritten, Tidy, Captured, IsValidImageTag;
    RetagThenRestoreIff(text, target);
    TidyIff(Lines(text));
  }

  /** The line is an image line whose captured reference is not the target's. */
  predicate NamesOther(line: string, refs: map<string, string>, target: string) {
    var p := Parse(Body(line));
    p.Some? && GetOr(refs, p.value.repo, "") != p.value.repo + ":" + target
  }

  lemma SameMiddle(left: string, a: string, b: string, right: string)
    ensures left + a + right == left + b + right <==> a == b
  {
    if left + a + right == left + b + right {
      assert a == (left + a + right)[|left|..|left + a + right| - |right|];
      assert b == (left + b + right)[|left|..|left + b + right| - |right|];
    }
  }

  lemma SameTextIff(a: string, b: string)
    ensures a == b <==> Lines(a) == Lines(b)
  {
    hide Lines, Concat;
    LinesRoundTrip(a);
    LinesRoundTrip(b);
  }

  /** A run that is not written back can be told from one that is exactly by an image line that named something
      else than the target. */
  lemma TargetShowsIff(text: string, target: string)
    requires IsValidImageTag(target)
    ensures var lines := Lines(text);
      Restored(text, target) != Rewritten(text, Retag(target)) <==>
        exists i :: 0 <= i < |lines| && NamesOther(lines[i], Captured(lines), target)
  {
    hide Parse, Lines, Body, Newline, Rewrite, RewriteAll, Captured, Concat, IsValidImageTag, Retagged;
    var lines, refs := Lines(text), Captured(Lines(text));
    var tagged, back := Rewritten(text, Retag(target)), Restored(text, target);
    RestoredText(text, target);
    RetaggedLines(text, target);
    SameTextIff(tagged, back);
    forall i | 0 <= i < |lines|
      ensures Lines(back)[i] == Lines(tagged)[i] <==> !NamesOther(lines[i], refs, target)
    {
      RetaggedIs(lines[i], Lines(tagged)[i], target);
      var p := Parse(Body(lines[i]));
      if p.Some? {
        SameMiddle(p.value.indent, GetOr(refs, p.value.repo, ""), p.value.repo + ":" + target, Newline(lines[i]));
      }
    }
  }

  lemma RetaggedIs(line: string, line': string, target: string)
    requires Retagged(line, line', target)
    ensures var p := Parse(Body(line));
      line' == if p.None? then line else p.value.indent + (p.value.repo + ":" + target) + Newline(line)
  {
    hide Parse, Body, Newline, IsIndent, IsRepo, IsSuffix;
    if Parse(Body(line)).Some? {
      var q := Parse(Body(line')).value;
      BodyAndNewline(line');
      ParseIff(Body(line'), q);
      assert q.repo + (":" + target + "") == q.repo + ":" + target;
    }
  }
}
