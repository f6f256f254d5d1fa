/**
 * One run of the monitor for one URL: make sure the URL has a section in
 * the status store, read the status recorded by the previous run, record the
 * probe's verdict as the option `Down`, and decide whether a "down" mail is
 * due.  The probe (`wget`), the mail transport, the clock and the
 * configuration file are outside: their results are parameters.
 */
module Alive {
  import opened Wrappers
  import opened Ascii
  import opened ConfigParser

  /** The command-line options the step reads; `None` is an option not given. */
  datatype Options = Options(url: Option<string>, from: Option<string>, to: Option<string>)

  /** The alert handed to the mail transport. */
  datatype Mail = Mail(
    subject: string,
    body: string,
    to: string,            // the `To` header and the only recipient
    fromHeader: Option<string>,  // the `From` header, absent when no sender is given
    sender: Option<string>)      // the envelope sender, passed on as given

  datatype Outcome =
    | UsageExit                       // no URL: help printed, exit status 1
    | Raised(error: ConfigError)      // `add_section` refused the URL; the run stops
    | Checked(previousDown: bool, alert: Option<Mail>)

  /** The store after the step, and what the step did. */
  datatype Step = Step(sections: map<string, Section>, outcome: Outcome)

  /** Python truth of an optional string option: given and not empty. */
  predicate Truthy(o: Option<string>) {
    o.Some? && o.value != ""
  }

  /** The option under which the status is stored, after case folding. */
  const DownKey: string := "down"

  lemma DownKeyIsFolded()
    ensures OptionXform("Down") == DownKey
  {
  }

  /** The store with a section for `url`: an existing one is kept as it is. */
  function WithSection(sections: map<string, Section>, url: string): (r: map<string, Section>)
    ensures r.Keys == sections.Keys + {url}
    ensures forall s :: s in sections ==> r[s] == sections[s]
    ensures url !in sections ==> r[url] == map[]
  {
    if url in sections then sections else sections[url := map[]]
  }

  /**
   * The status of the previous run: `getboolean(url, "Down")` on the store
   * with the URL's section in place, and up (false) when that raises.
   */
  function PreviousDown(sections: map<string, Section>, defaults: Section, url: string): (down: bool)
    ensures url in sections && DownKey in sections[url] ==>
              (down <==> ParseBoolean(sections[url][DownKey]) == Some(true))
    ensures (url !in sections || DownKey !in sections[url]) && DownKey in defaults ==>
              (down <==> ParseBoolean(defaults[DownKey]) == Some(true))
    ensures (url !in sections || DownKey !in sections[url]) && DownKey !in defaults ==> !down
  {
    DownKeyIsFolded();
    match GetBoolean(WithSection(sections, url), defaults, url, "Down")
    case Ok(b) => b
    case Err(_) => false
  }

  /** The mail sent when the site goes down. */
  function DownAlert(url: string, now: string, opts: Options): (m: Mail)
    requires Truthy(opts.to)
    ensures m.subject == url + " Down" && m.body == "Site is down at " + now
    ensures m.to == opts.to.value && m.sender == opts.from
    ensures m.fromHeader.Some? <==> Truthy(opts.from)
    ensures m.fromHeader.Some? ==> m.fromHeader == opts.from
  {
    Mail(url + " Down", "Site is down at " + now, opts.to.value,
         if Truthy(opts.from) then opts.from else None, opts.from)
  }

  /**
   * The store after the step's writes: the URL's section in place and its
   * `down` option overwritten with the verdict.
   */
  function Record(sections: map<string, Section>, url: string, probeFailed: bool): (r: map<string, Section>)
    ensures r.Keys == sections.Keys + {url}
    ensures forall s :: s in sections && s != url ==> r[s] == sections[s]
    ensures r[url].Keys == (if url in sections then sections[url].Keys else {}) + {DownKey}
    ensures r[url][DownKey] == (if probeFailed then "yes" else "no")
    ensures forall k :: url in sections && k in sections[url] && k != DownKey ==> r[url][k] == sections[url][k]
  {
    var s := WithSection(sections, url);
    s[url := s[url][DownKey := Flag(probeFailed)]]
  }

  /**
   * The step as a function of the store before it, the options, the probe
   * verdict (`probeFailed` is a non-zero exit of `wget`) and the time of day.
   */
  function Reconcile(sections: map<string, Section>, defaults: Section, opts: Options,
                     probeFailed: bool, now: string): (r: Step)
    requires DefaultSection !in sections
    ensures DefaultSection !in r.sections
    ensures r.outcome == UsageExit <==> !Truthy(opts.url)
    ensures r.outcome.Raised? <==>
              Truthy(opts.url) && opts.url.value !in sections && Lower(opts.url.value) == "default"
    ensures !r.outcome.Checked? ==> r.sections == sections
    // the URL has a section afterwards; no other section changes
    ensures r.outcome.Checked? ==>
              r.sections.Keys == sections.Keys + {opts.url.value}
              && forall s :: s in sections && s != opts.url.value ==> r.sections[s] == sections[s]
    // in the URL's section only `down` changes, and it records the verdict alone
    ensures r.outcome.Checked? ==>
              var url := opts.url.value;
              && r.sections[url].Keys == (if url in sections then sections[url].Keys else {}) + {DownKey}
              && r.sections[url][DownKey] == (if probeFailed then "yes" else "no")
              && forall k :: url in sections && k in sections[url] && k != DownKey ==>
                               r.sections[url][k] == sections[url][k]
    ensures r.outcome.Checked? ==> r.outcome.previousDown == PreviousDown(sections, defaults, opts.url.value)
    // a mail exactly on a failure after an up status, when there is a recipient
    ensures r.outcome.Checked? ==>
              (r.outcome.alert.Some? <==> probeFailed && !r.outcome.previousDown && Truthy(opts.to))
    ensures r.outcome.Checked? && r.outcome.alert.Some? ==>
              var m := r.outcome.alert.value;
              && m.subject == opts.url.value + " Down"
              && m.to == opts.to.value
              && m.body == "Site is down at " + now
              && m.sender == opts.from
              && (m.fromHeader.Some? <==> Truthy(opts.from))
              && (m.fromHeader.Some? ==> m.fromHeader == opts.from)
  {
    if !Truthy(opts.url) then Step(sections, UsageExit)
    else
      var url := opts.url.value;
      if url !in sections && Lower(url) == "default" then
        Step(sections, Raised(InvalidSectionName(url)))
      else
        var prev := PreviousDown(sections, defaults, url);
        DefaultSectionFolds();
        var alert := if probeFailed && !prev && Truthy(opts.to) then Some(DownAlert(url, now, opts)) else None;
        Step(Record(sections, url, probeFailed), Checked(prev, alert))
  }

  /**
   * The step on the parser itself, in the order of the script: section,
   * previous status, the write of `Down` in either branch, the mail decision.
   */
  method CheckOnce(config: RawConfigParser, opts: Options, probeFailed: bool, now: string)
    returns (outcome: Outcome)
    requires config.Valid()
    modifies config
    ensures config.Valid()
    ensures config.defaults == old(config.defaults)
    ensures var r := Reconcile(old(config.sections), old(config.defaults), opts, probeFailed, now);
            config.sections == r.sections && outcome == r.outcome
  {
    if !Truthy(opts.url) {
      return UsageExit;
    }
    var url := opts.url.value;
    if url !in config.sections {  // has_section
      var err := config.AddSection(url);
      if err.Some? {
        return Raised(err.value);
      }
    }
    var prev := PreviousDown(config.sections, config.defaults, url);
    var alert: Option<Mail> := None;
    DownKeyIsFolded();
    DefaultSectionFolds();
    if probeFailed {
      var err := config.Set(url, "Down", "yes");
      if !prev && Truthy(opts.to) {
        alert := Some(DownAlert(url, now, opts));
      }
    } else {
      var err := config.Set(url, "Down", "no");
    }
    return Checked(prev, alert);
  }
}
