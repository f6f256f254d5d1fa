# Alive: one availability check of one URL

`alive.py` checks whether a URL can be fetched and keeps, per URL, a
`Down` flag in a configuration file read and written with Python 2's
`ConfigParser.RawConfigParser`. One run of the script:

1. stops with exit status 1 when no URL is given;
2. makes sure the store has a section named by the URL (`add_section`
   refuses any spelling of `default`, which stops the run);
3. reads the previous status with `getboolean(url, "Down")`, up when that
   raises (option missing, value not a boolean word);
4. probes the URL with `wget`; every non-zero exit status means down;
5. writes `Down = yes` or `Down = no`;
6. on a failure after an up status, when a `To` address is given, mails
   `"<url> Down"` to it, with a `From` header only when a sender is given;
7. writes the store back to a file.

The model keeps the store as a class, `ConfigParser.RawConfigParser`, with a
map from section name to a map from option to string, plus the file's
`[DEFAULT]` values, which every section falls back on. `Alive.CheckOnce`
performs steps 1-6 on that object in the script's order. `Alive.Reconcile`
is the same step as a function of the store before it; `CheckOnce` is proved
to agree with it. The properties are proved about `Reconcile`, one run at a
time and over series of runs. `Program` adds the file read and write of a
whole invocation (step 7), which is where the one finding below lies.

Parameters stand in for the outside world. `probeFailed` is a non-zero
`wget` exit (alive.py:42). `now` is the `ctime()` text for the mail body.
`Options` holds the `--url`, `--from` and `--to` values, with `None` for an
option that was not given. An empty string counts as not given, as in Python.

The library behaviour modelled is that of Python 2.7's `RawConfigParser`:
- option names are lower-cased on `get` and `set`, so `Down` is stored as `down`;
- `get` falls back on `[DEFAULT]` values;
- `getboolean` accepts `1/yes/true/on` and `0/no/false/off` after lower-casing;
- `add_section` raises for any name whose lower case is `default`, and for an existing name;
- `set` with an empty or `DEFAULT` section name writes the defaults.

The library's source is not part of this model. Lower-casing is ASCII only,
as `str.lower()` does it in the C locale.

Later versions of `alive.py` add concurrent probes, a strict ordering
mode, triggers, last-change times, a lock file, up mails and a mapping of
`wget` exit code 6 to "up". This version has none of them, and the model
follows this version: every non-zero exit is down, and there is no up mail.

## Model

| member | source | states |
|---|---|---|
| `Ascii.Lower` | alive.py:33 | the case folding `getboolean` applies keeps the length and folds each character on its own, only `A`-`Z` changing |
| `ConfigParser.OptionXform` | alive.py:48 | option names are stored case-folded; folding a stored key again changes nothing |
| `ConfigParser.ParseBoolean` | alive.py:33 | the value parses as true exactly for `1/yes/true/on` and as false exactly for `0/no/false/off`, ignoring case; anything else is an error (`None`) |
| `ConfigParser.ParseBooleanCaseInsensitive` | alive.py:33 | folding a value first never changes how it parses |
| `ConfigParser.Get` | alive.py:33 | a section's own value shadows the `[DEFAULT]` one; the lookup fails exactly when the section is unknown or neither holds the option |
| `ConfigParser.GetBoolean` | alive.py:33 | succeeds exactly when `get` succeeds and its value parses, with the parsed boolean |
| `ConfigParser.FlagRoundTrip` | alive.py:48 | the words written, `yes` and `no`, parse back as true and false |
| `ConfigParser.GetBooleanAfterSet` | alive.py:48 | `getboolean` of an option just set to a flag yields that flag |
| `ConfigParser.RawConfigParser.constructor` | alive.py:27-28 | a store holding what was read, with no section named `DEFAULT` |
| `ConfigParser.RawConfigParser.AddSection` | alive.py:30 | refuses a name folding to `default` (which includes `DEFAULT`) or an existing name and then changes nothing; otherwise adds an empty section and nothing else, so no section named `DEFAULT` appears |
| `ConfigParser.RawConfigParser.Set` | alive.py:48 | writes the case-folded option into the named section, or into the defaults for an empty or `DEFAULT` name, and fails without change for an unknown section |
| `Alive.WithSection` | alive.py:29-30 | afterwards the URL has a section; an existing one and every other section are kept |
| `Alive.PreviousDown` | alive.py:32-35 | the previous status is the URL's own `down` value parsed, else the `[DEFAULT]` one; it is up when the option is in neither or its value is not a boolean word |
| `Alive.DownAlert` | alive.py:52-56 | the mail has subject `"<url> Down"`, the timed body, the given `To` address as recipient, the given sender as envelope sender, and a `From` header exactly when the sender is non-empty |
| `Alive.Record` | alive.py:48 | only the URL's `down` option (the option `Down` after case folding) is added or overwritten, with `yes` or `no` from the verdict alone; every other section and option is kept |
| `Alive.Reconcile` | alive.py:23-65 | exit without change when no URL is given; stop without change when `add_section` refuses the URL; otherwise the section exists, the status is overwritten from the verdict alone, and a mail is due exactly on a failure after an up status with a `To` address, with subject `"<url> Down"`, that recipient, the timed body, and a `From` header only for a non-empty sender; never a mail when the probe succeeds |
| `Alive.CheckOnce` | alive.py:23-65 | the script's sequence of `add_section`, `getboolean` and `set` leaves the parser in the state `Reconcile` gives, returns its outcome, and keeps the defaults |
| `AliveProperties.WrittenStatusReadsBack` | alive.py:48-65 | after a run, `getboolean(url, "Down")` yields exactly the probe verdict |
| `AliveProperties.NextRunSeesVerdict` | alive.py:33-48 | the run after a completed run completes too and reads that run's verdict as its previous status, whatever came before |
| `AliveProperties.DownReportedOnce` | alive.py:45-50 | of two failing runs in a row, the second never mails |
| `AliveProperties.AlertsAreDownTransitions` | alive.py:45-50 | over any series of runs on the same store, the number of mails is the number of up-to-down transitions when a `To` address is given, and zero without one |
| `AliveProperties.AlwaysDownReportedAtMostOnce` | alive.py:45-50 | a site down on every run has at most one up-to-down transition, and none if it was already down |
| `Program.Load` | alive.py:28 | a missing configuration file reads as an empty store |
| `Program.RunWritingTo` | alive.py:27-69 | the outcome is the step's outcome on the store read from the configuration file; a run that completes puts the step's store, with the defaults read, in the target file and changes no other file; a run that stops writes nothing |
| `Program.RunAsWritten` | alive.py:68 | the script as written has the step's outcome on the store read from the configuration file, puts the step's store in `test.cfg` when the step completes, and leaves every other file alone |
| `Program.Run` | alive.py:28 | the corrected script has the step's outcome on the store read, puts the step's store back in the file it read when the step completes, and leaves every other file alone |
| `Program.AsWrittenMailsOnEveryDownRun` | alive.py:68 | as written, with a configuration file other than `test.cfg` that records the URL as up (or does not exist), and a `To` address, two failing runs in a row both mail |
| `Program.DownReportedOnceAcrossInvocations` | alive.py:45-50 | with the store written back where it was read, the second of two failing invocations reads "down" and does not mail |

## Findings

| source | as written | input that shows it | evidently intended | confidence | as-written member | corrected member |
|---|---|---|---|---|---|---|
| alive.py:68 | the store is read from the `--config` file (default `alive.cfg`, line 28) but always written to `test.cfg` | default options, a site down on two runs in a row, a `To` address: the second run reads the unchanged `alive.cfg`, sees "up" again and mails again | write the store back to the `--config` file, so the next run sees this run's status | medium; not executed | `Program.AsWrittenMailsOnEveryDownRun` | `Program.DownReportedOnceAcrossInvocations` |

The properties of successive runs in `AliveProperties` are stated for the
store carried from one run to the next, which is the corrected behaviour.

## Left out

- Command-line parsing (alive.py:11-21) is left out. `Options` stands for its result, and `UsageExit` for the exit at lines 23-25.
- Running `wget` (alive.py:37) is an external process; its verdict is the parameter `probeFailed`. If `wget` cannot be started, `Popen` raises at line 37 and the script stops before line 48, with no write and no mail; the model does not capture that.
- The SMTP connection and MIME formatting (alive.py:57-62) are network I/O; only the mail's fields are modelled. An SMTP error would stop the script before line 68, so nothing would be written; the model does not capture that.
- The time in the mail body (alive.py:52) comes from the clock; it is the parameter `now`.
- The configuration file's text format is left out: a file is modelled as the store it parses to, and the model takes a written store to read back unchanged. That holds only for section names the reader's header pattern accepts whole. A name containing `]`, such as `http://[::1]/`, reads back cut at the first `]`, so `Program.DownReportedOnceAcrossInvocations` does not cover such URLs. Python's own parser is not part of this model.
- Verbose printing (alive.py:39-40, 43, 46, 51, 64) is output only.
- Options stored under the hidden `__name__` key that the reader adds to every section are left out; the flow never reads them.
- Concurrency, strict ordering, triggers, last-change times, up mails and the lock file are not in this version of `alive.py`, so they are not in the model. The same holds for the `Alive` and `Site` classes that `alive_tests.py` exercises.
