// The commands at their edges: what they do without a record, without a declaration, and where they only report.
module FlowCommands {
  import opened Options
  import opened FlowState
  import opened FlowSpec

  /** Nothing is saved and nothing is asked for. */
  predicate LeavesAll(s: Sys, s': Sys) {
    s'.disk == s.disk && s'.tape == s.tape && s'.trace == s.trace && s'.clock == s.clock
  }

  /** A record that was begun just now. */
  predicate IsBegun(s: Sys, s': Sys) {
    && s'.disk.latest == s'.mem.rec && s'.mem.rec.Some? && s'.tape == s.tape
    && s'.mem.rec.value
       == Record(s.clock, s.clock, s.clock, "initialized", "", Unstarted, false, "", "", "", "", "", "", "", "", "", "",
                 false, "", "", "", false, false, "", "", "", "", "", "", "")
  }

  /**
   * How a resume begins with a new client. The saved record is taken up as it is, and its gap with it, as one that has
   * not been verified; without one, or if it is to be ignored, a new record is begun. A repository that cannot be read
   * ends everything before anything is saved.
   */
  lemma RecordIsTakenUpOrBegun(cfg: Config, s: Sys, useLast: bool)
    requires s.mem == FRESH_MEMORY
    ensures var o := Open(cfg, s, useLast);
      if !cfg.declarationReads then o.out == Err(BadDeclaration) && LeavesAll(s, o.sys)
      else if useLast && s.disk.latest.Some? then
        && o.out == Ok(()) && LeavesAll(s, o.sys)
        && var r := s.disk.latest.value;
           o.sys.mem == Memory(Some(r), r.gapId, if r.gapId == "" then "" else r.gapSource, false, NO_CAPABILITIES)
      else o.out == Ok(()) && IsBegun(s, o.sys)
  {
  }

  /** The receipt is shown exactly if there is a record, the repository can be read, and the record has an id for the
      receipt or for its proof. */
  lemma ReceiptIsShown(cfg: Config, s: Sys)
    ensures var r := ShowReceipt(cfg, s);
      && LeavesAll(s, r.sys)
      && r.out == if s.disk.latest.None? then Err(NoState)
                  else if !cfg.declarationReads then Err(BadDeclaration)
                  else if s.disk.latest.value.receiptId == "" && s.disk.latest.value.proofId == "" then Err(NoReceipt)
                  else Ok(s.disk.latest.value)
  {
  }

  /** The status needs a record and a repository that can be read; it asks the server what it can do and for the saved
      run, and then reports the record as it is on the disk. */
  lemma StatusIsReported(cfg: Config, s: Sys)
    ensures var r := Status(cfg, s);
      && (s.disk.latest.None? ==> r == Run(s, Err(NoState)))
      && (s.disk.latest.Some? && !cfg.declarationReads ==> r.out == Err(BadDeclaration) && LeavesAll(s, r.sys))
      && (s.disk.latest.Some? && cfg.declarationReads ==>
            var l := Load(cfg, s).sys;
            && LeavesAll(s, l) && l.mem.rec == s.disk.latest
            && var d := Discover(cfg, l);
            if !d.out.Ok? then r.out == d.out.Fail() && r.sys == d.sys
            else
              var p := Recover(cfg, d.sys);
              && r.sys == p.sys
              && r.out == if p.out.Ok? then Ok(Current(p.sys)) else p.out.Fail())
  {
    hide Discover, Recover;
  }

  /** A dry run takes the operator's word for the gap, canonical or not, and saves nothing then. */
  lemma DryRunTrustsTheOperator(cfg: Config, s: Sys)
    requires cfg.declarationReads && cfg.operatorGap != ""
    ensures var r, d := RunFlow(cfg, s, true), Discover(cfg, s);
      && r.sys == d.sys && r.sys.disk == s.disk
      && r.out == if d.out.Ok? then Ok(WouldUse(cfg.operatorGap)) else d.out.Fail()
  {
  }
}
