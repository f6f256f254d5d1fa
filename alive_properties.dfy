/**
 * Properties of successive runs of the monitor against the same store: what
 * one run records is what the next one reads, so a site that stays down is
 * reported once, and over many runs the mails are exactly the up-to-down
 * transitions.
 */
module AliveProperties {
  import opened Wrappers
  import opened Ascii
  import opened ConfigParser
  import opened Alive

  /** `getboolean(url, "Down")` after a run gives back that run's verdict. */
  lemma WrittenStatusReadsBack(sections: map<string, Section>, defaults: Section, opts: Options,
                               probeFailed: bool, now: string)
    requires DefaultSection !in sections
    requires Reconcile(sections, defaults, opts, probeFailed, now).outcome.Checked?
    ensures var r := Reconcile(sections, defaults, opts, probeFailed, now);
            GetBoolean(r.sections, defaults, opts.url.value, "Down") == Ok(probeFailed)
  {
    var r := Reconcile(sections, defaults, opts, probeFailed, now);
    var url := opts.url.value;
    DownKeyIsFolded();
    FlagRoundTrip(probeFailed);
    assert r.sections[url][DownKey] == Flag(probeFailed);
  }

  /** The next run reads as previous status the verdict of this one, whatever came before. */
  lemma NextRunSeesVerdict(sections: map<string, Section>, defaults: Section, opts: Options,
                           firstFailed: bool, secondFailed: bool, now1: string, now2: string)
    requires DefaultSection !in sections
    requires Reconcile(sections, defaults, opts, firstFailed, now1).outcome.Checked?
    ensures var r1 := Reconcile(sections, defaults, opts, firstFailed, now1);
            var r2 := Reconcile(r1.sections, defaults, opts, secondFailed, now2);
            r2.outcome.Checked? && r2.outcome.previousDown == firstFailed
  {
    var r1 := Reconcile(sections, defaults, opts, firstFailed, now1);
    var url := opts.url.value;
    FlagRoundTrip(firstFailed);
    assert r1.sections[url][DownKey] == Flag(firstFailed);
  }

  /** Two failing runs in a row mail at most once: the second one never mails. */
  lemma DownReportedOnce(sections: map<string, Section>, defaults: Section, opts: Options,
                         now1: string, now2: string)
    requires DefaultSection !in sections
    ensures var r1 := Reconcile(sections, defaults, opts, true, now1);
            var r2 := Reconcile(r1.sections, defaults, opts, true, now2);
            r2.outcome.Checked? ==> r2.outcome.alert == None
  {
    var r1 := Reconcile(sections, defaults, opts, true, now1);
    if r1.outcome.Checked? {
      NextRunSeesVerdict(sections, defaults, opts, true, true, now1, now2);
    }
  }

  /** The mails sent by a series of runs with the given verdicts, each run reading the store the last one left. */
  function AlertCount(sections: map<string, Section>, defaults: Section, opts: Options,
                      verdicts: seq<bool>, now: string): nat
    requires DefaultSection !in sections
    decreases |verdicts|
  {
    if verdicts == [] then 0
    else
      var r := Reconcile(sections, defaults, opts, verdicts[0], now);
      (if r.outcome.Checked? && r.outcome.alert.Some? then 1 else 0)
        + AlertCount(r.sections, defaults, opts, verdicts[1..], now)
  }

  /** The number of failures in `verdicts` that follow an up status, starting from `wasDown`. */
  function DownTransitions(wasDown: bool, verdicts: seq<bool>): nat
    decreases |verdicts|
  {
    if verdicts == [] then 0
    else (if verdicts[0] && !wasDown then 1 else 0) + DownTransitions(verdicts[0], verdicts[1..])
  }

  /**
   * Over any series of runs for one URL, a mail goes out exactly at each
   * up-to-down transition when a recipient is given, and never otherwise.
   */
  lemma {:induction false} AlertsAreDownTransitions(sections: map<string, Section>, defaults: Section,
                                                    opts: Options, verdicts: seq<bool>, now: string)
    requires DefaultSection !in sections
    requires Truthy(opts.url)
    requires opts.url.value in sections || Lower(opts.url.value) != "default"
    ensures AlertCount(sections, defaults, opts, verdicts, now) ==
            if Truthy(opts.to) then DownTransitions(PreviousDown(sections, defaults, opts.url.value), verdicts)
            else 0
    decreases |verdicts|
  {
    if verdicts != [] {
      var url := opts.url.value;
      var r := Reconcile(sections, defaults, opts, verdicts[0], now);
      assert r.outcome.Checked?;
      var mailed := if r.outcome.alert.Some? then 1 else 0;
      assert mailed == if Truthy(opts.to) && verdicts[0] && !PreviousDown(sections, defaults, url) then 1 else 0;
      assert AlertCount(sections, defaults, opts, verdicts, now) ==
             mailed + AlertCount(r.sections, defaults, opts, verdicts[1..], now);
      NextRunSeesVerdict(sections, defaults, opts, verdicts[0], verdicts[0], now, now);
      assert url in r.sections;
      assert PreviousDown(r.sections, defaults, url) == verdicts[0];
      AlertsAreDownTransitions(r.sections, defaults, opts, verdicts[1..], now);
    }
  }

  /** A site that is down on every run is reported at most once. */
  lemma {:induction false} AlwaysDownReportedAtMostOnce(wasDown: bool, verdicts: seq<bool>)
    requires forall i :: 0 <= i < |verdicts| ==> verdicts[i]
    ensures DownTransitions(wasDown, verdicts) <= 1
    ensures wasDown ==> DownTransitions(wasDown, verdicts) == 0
    decreases |verdicts|
  {
    if verdicts != [] {
      AlwaysDownReportedAtMostOnce(true, verdicts[1..]);
    }
  }
}
