/**
 * A whole invocation of the script: read the status store from the
 * configuration file, run the step, write the store back.  Files are a map
 * from file name to the store they hold; a file that does not exist reads as
 * an empty store, as `RawConfigParser.read` skips missing files.
 */
module Program {
  import opened Wrappers
  import opened ConfigParser
  import opened Alive
  import AliveProperties

  /** The parsed contents of one configuration file. */
  datatype Store = Store(sections: map<string, Section>, defaults: Section)

  type Files = map<string, Store>

  /** The file name the script writes to, whatever file it read. */
  const WrittenFile: string := "test.cfg"

  const EmptyStore: Store := Store(map[], map[])

  /** What `read` yields: the file's store, or an empty one when it is missing. */
  function Load(files: Files, name: string): (st: Store)
    requires forall f :: f in files ==> DefaultSection !in files[f].sections
    ensures DefaultSection !in st.sections
    ensures name !in files ==> st == EmptyStore
  {
    if name in files then files[name] else EmptyStore
  }

  /** An invocation that stores the result under `target` when the step completes. */
  function RunWritingTo(files: Files, configFile: string, target: string, opts: Options,
                        probeFailed: bool, now: string): (r: (Files, Outcome))
    requires forall f :: f in files ==> DefaultSection !in files[f].sections
    ensures forall f :: f in r.0 ==> DefaultSection !in r.0[f].sections
    ensures files.Keys <= r.0.Keys
    ensures !r.1.Checked? ==> r.0 == files
    ensures r.1.Checked? ==> r.0.Keys == files.Keys + {target}
    ensures forall f :: f in files && f != target ==> r.0[f] == files[f]
    ensures var st := Load(files, configFile);
            var step := Reconcile(st.sections, st.defaults, opts, probeFailed, now);
            r.1 == step.outcome && (r.1.Checked? ==> target in r.0 && r.0[target] == Store(step.sections, st.defaults))
  {
    var st := Load(files, configFile);
    var step := Reconcile(st.sections, st.defaults, opts, probeFailed, now);
    if step.outcome.Checked? then (files[target := Store(step.sections, st.defaults)], step.outcome)
    else (files, step.outcome)
  }

  /** The script as written: reads `configFile`, writes `test.cfg`. */
  function RunAsWritten(files: Files, configFile: string, opts: Options, probeFailed: bool, now: string)
    : (r: (Files, Outcome))
    requires forall f :: f in files ==> DefaultSection !in files[f].sections
    ensures forall f :: f in r.0 ==> DefaultSection !in r.0[f].sections
    ensures files.Keys <= r.0.Keys
    ensures forall f :: f in files && f != WrittenFile ==> r.0[f] == files[f]
    ensures !r.1.Checked? ==> r.0 == files
    ensures var st := Load(files, configFile);
            var step := Reconcile(st.sections, st.defaults, opts, probeFailed, now);
            r.1 == step.outcome && (r.1.Checked? ==> WrittenFile in r.0 && r.0[WrittenFile] == Store(step.sections, st.defaults))
  {
    RunWritingTo(files, configFile, WrittenFile, opts, probeFailed, now)
  }

  /** The script as intended: the store goes back to the file it came from. */
  function Run(files: Files, configFile: string, opts: Options, probeFailed: bool, now: string)
    : (r: (Files, Outcome))
    requires forall f :: f in files ==> DefaultSection !in files[f].sections
    ensures forall f :: f in r.0 ==> DefaultSection !in r.0[f].sections
    ensures files.Keys <= r.0.Keys
    ensures forall f :: f in files && f != configFile ==> r.0[f] == files[f]
    ensures !r.1.Checked? ==> r.0 == files
    ensures var st := Load(files, configFile);
            var step := Reconcile(st.sections, st.defaults, opts, probeFailed, now);
            r.1 == step.outcome && (r.1.Checked? ==> configFile in r.0 && r.0[configFile] == Store(step.sections, st.defaults))
  {
    RunWritingTo(files, configFile, configFile, opts, probeFailed, now)
  }

  /**
   * As written, when the configuration file read is not `test.cfg` (the
   * default is `alive.cfg`), the store a run writes is never read back: a
   * site that is down on two runs in a row, and that the file records as
   * up, is mailed about on both.
   */
  lemma AsWrittenMailsOnEveryDownRun(files: Files, configFile: string, opts: Options, now1: string, now2: string)
    requires forall f :: f in files ==> DefaultSection !in files[f].sections
    requires configFile != WrittenFile
    requires Truthy(opts.url) && Truthy(opts.to)
    requires var st := Load(files, configFile);
             && (opts.url.value in st.sections || Ascii.Lower(opts.url.value) != "default")
             && !PreviousDown(st.sections, st.defaults, opts.url.value)
    ensures var r1 := RunAsWritten(files, configFile, opts, true, now1);
            var r2 := RunAsWritten(r1.0, configFile, opts, true, now2);
            r1.1.Checked? && r1.1.alert.Some? && r2.1.Checked? && r2.1.alert.Some?
  {
  }

  /**
   * With the store written back where it was read, a second failing run
   * never mails again, for every store, option set and file name.
   */
  lemma DownReportedOnceAcrossInvocations(files: Files, configFile: string, opts: Options, now1: string, now2: string)
    requires forall f :: f in files ==> DefaultSection !in files[f].sections
    ensures var r1 := Run(files, configFile, opts, true, now1);
            var r2 := Run(r1.0, configFile, opts, true, now2);
            r1.1.Checked? ==> r2.1.Checked? && r2.1.previousDown && r2.1.alert == None
  {
    var r1 := Run(files, configFile, opts, true, now1);
    if r1.1.Checked? {
      var st := Load(files, configFile);
      AliveProperties.NextRunSeesVerdict(st.sections, st.defaults, opts, true, true, now1, now2);
      assert Load(r1.0, configFile) == Store(Reconcile(st.sections, st.defaults, opts, true, now1).sections, st.defaults);
    }
  }
}
