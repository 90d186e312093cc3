/**
 * The configuration resolution of the MLflow setup script: parsing the
 * `databricks auth profiles` table, and the two priority cascades that choose
 * the tracking URI and the experiment ID.
 *
 * The Databricks CLI, the environment and the MLflow client are inputs: the
 * CLI's standard output (`None` when it exits non-zero or is not installed),
 * the environment as a map, the ID `create_experiment` returned (`None` when
 * it raised) and the list `list_experiments` returned (empty when it raised).
 */
module SetupMlflow {
  import opened Wrappers
  import opened Text
  import opened Env

  // ===========================================================================
  // detect_databricks_profiles

  /**
   * `valid.upper() == "YES"` under Python's full case mapping: besides the ASCII
   * letters, the long s (U+017F) upper-cases to "S", and no other character
   * upper-cases to "Y", "E" or "S" or to a string containing them.
   */
  predicate UpperIsYes(valid: string) {
    && |valid| == 3
    && (valid[0] == 'y' || valid[0] == 'Y')
    && (valid[1] == 'e' || valid[1] == 'E')
    && (valid[2] == 's' || valid[2] == 'S' || valid[2] == 'ſ')
  }

  /** The rows below the header: `stdout.strip().split("\n")[1:]`. */
  function ProfileRows(stdout: string): seq<string> {
    Split(Strip(stdout), '\n')[1..]
  }

  /** The profile a row contributes: blank rows and rows of fewer than three fields none. */
  function RowProfile(row: string): (r: Option<string>)
    ensures r.Some? ==> IsField(r.value)
  {
    if Strip(row) == "" then None
    else
      var parts := Fields(row);
      if |parts| >= 3 && UpperIsYes(parts[|parts| - 1]) then Some(parts[0]) else None
  }

  /** What each row contributes, row by row. */
  function RowProfiles(rows: seq<string>): (r: seq<Option<string>>)
    ensures |r| == |rows| && forall k :: 0 <= k < |rows| ==> r[k] == RowProfile(rows[k])
  {
    seq(|rows|, k requires 0 <= k < |rows| => RowProfile(rows[k]))
  }

  /** The values present in `opts`, in order. */
  function Collect(opts: seq<Option<string>>): (r: seq<string>)
    ensures |r| <= |opts|
  {
    if opts == [] then []
    else
      var init := Collect(opts[..|opts| - 1]);
      match opts[|opts| - 1]
      case Some(name) => init + [name]
      case None => init
  }

  /** The profiles of `rows`, in row order. */
  function ValidProfiles(rows: seq<string>): seq<string> {
    Collect(RowProfiles(rows))
  }

  /** What `detect_databricks_profiles` returns for the CLI's output. */
  function DetectedProfiles(cli: Option<string>): seq<string> {
    if cli.None? then [] else ValidProfiles(ProfileRows(cli.value))
  }

  /** `detect_databricks_profiles`. */
  method DetectDatabricksProfiles(cli: Option<string>) returns (profiles: seq<string>)
    ensures profiles == DetectedProfiles(cli)
  {
    if cli.None? {
      return [];
    }
    var lines := Split(Strip(cli.value), '\n');
    profiles := CollectProfiles(lines[1..]);
  }

  /** The loop of `detect_databricks_profiles` over the rows below the header. */
  method CollectProfiles(rows: seq<string>) returns (profiles: seq<string>)
    ensures profiles == ValidProfiles(rows)
  {
    ghost var opts := RowProfiles(rows);
    profiles := [];
    for i := 0 to |rows|
      invariant profiles == Collect(opts[..i])
    {
      assert opts[..i + 1][..i] == opts[..i];
      var profile := ParseRow(rows[i]);
      if profile.Some? {
        profiles := profiles + [profile.value];
      }
    }
    assert opts[..|rows|] == opts;
  }

  /** The body of that loop for one row. */
  method ParseRow(line: string) returns (profile: Option<string>)
    ensures profile == RowProfile(line)
  {
    if Strip(line) == "" {
      return None;
    }
    var parts := Fields(line);
    if |parts| >= 3 {
      var name := parts[0];
      var valid := parts[|parts| - 1];
      if UpperIsYes(valid) {
        return Some(name);
      }
    }
    return None;
  }

  /** Every collected value is present at some position. */
  lemma {:induction false} CollectSound(opts: seq<Option<string>>, n: nat)
    requires n < |Collect(opts)|
    ensures exists k :: 0 <= k < |opts| && opts[k] == Some(Collect(opts)[n])
  {
    var init := opts[..|opts| - 1];
    if n < |Collect(init)| {
      CollectSound(init, n);
      var k :| 0 <= k < |init| && init[k] == Some(Collect(init)[n]);
      assert opts[k] == init[k];
    }
  }

  /** Every present value is collected. */
  lemma {:induction false} CollectComplete(opts: seq<Option<string>>, k: nat)
    requires k < |opts| && opts[k].Some?
    ensures opts[k].value in Collect(opts)
  {
    var init := opts[..|opts| - 1];
    if k < |init| {
      assert opts[k] == init[k];
      CollectComplete(init, k);
    }
  }

  /**
   * Every detected profile is the first field of some row with at least three
   * fields whose last one reads YES, so it is a non-empty whitespace-free word.
   */
  lemma ValidProfilesSound(rows: seq<string>, n: nat)
    requires n < |ValidProfiles(rows)|
    ensures exists k :: 0 <= k < |rows| && RowProfile(rows[k]) == Some(ValidProfiles(rows)[n])
    ensures IsField(ValidProfiles(rows)[n])
  {
    CollectSound(RowProfiles(rows), n);
  }

  /** Every row that names a valid profile has it reported. */
  lemma ValidProfilesComplete(rows: seq<string>, k: nat)
    requires k < |rows| && RowProfile(rows[k]).Some?
    ensures RowProfile(rows[k]).value in ValidProfiles(rows)
  {
    CollectComplete(RowProfiles(rows), k);
  }

  /**
   * One row of the table: a profile name, its host and its validity, and the
   * whitespace that aligns the columns after the name and after the host.
   */
  datatype ProfileEntry = ProfileEntry(name: string, nameGap: string, host: string, hostGap: string, valid: string)

  /** The columns are fields and the gaps are non-empty runs of whitespace other than newlines. */
  predicate WellFormedEntry(e: ProfileEntry) {
    && IsField(e.name) && IsField(e.host) && IsField(e.valid)
    && e.nameGap != [] && AllSpace(e.nameGap) && '\n' !in e.nameGap
    && e.hostGap != [] && AllSpace(e.hostGap) && '\n' !in e.hostGap
  }

  /** The entry printed as one row, its columns aligned by the gaps. */
  function RenderEntry(e: ProfileEntry): string {
    e.name + e.nameGap + e.host + e.hostGap + e.valid
  }

  /** The entries printed as rows. */
  function RenderEntries(entries: seq<ProfileEntry>): (r: seq<string>)
    ensures |r| == |entries| && forall k :: 0 <= k < |entries| ==> r[k] == RenderEntry(entries[k])
  {
    seq(|entries|, k requires 0 <= k < |entries| => RenderEntry(entries[k]))
  }

  /** The printed table: a header line, then one line per entry. */
  function RenderTable(header: string, entries: seq<ProfileEntry>): string {
    Join([header] + RenderEntries(entries), '\n')
  }

  /** What an entry should contribute: its name when it reads YES. */
  function EntryProfile(e: ProfileEntry): Option<string> {
    if UpperIsYes(e.valid) then Some(e.name) else None
  }

  /** The names of the entries that read YES, in order. */
  function YesNames(entries: seq<ProfileEntry>): seq<string> {
    if entries == [] then []
    else YesNames(entries[..|entries| - 1])
         + (if UpperIsYes(entries[|entries| - 1].valid) then [entries[|entries| - 1].name] else [])
  }

  /** A header line as the CLI prints it: non-empty, one line, not padded. */
  predicate IsHeaderLine(header: string) {
    header != [] && !IsSpace(header[0]) && !IsSpace(header[|header| - 1]) && '\n' !in header
  }

  /** A printed entry is a single line that neither starts nor ends with whitespace. */
  lemma RenderEntryShape(e: ProfileEntry)
    requires WellFormedEntry(e)
    ensures IsHeaderLine(RenderEntry(e))
  {
    var r := RenderEntry(e);
    assert r[0] == e.name[0];
    assert r[|r| - 1] == e.valid[|e.valid| - 1];
    FieldLacksNewline(e.name);
    FieldLacksNewline(e.host);
    FieldLacksNewline(e.valid);
  }

  /** A printed entry parses back to its name exactly when it reads YES. */
  lemma RenderEntryParse(e: ProfileEntry)
    requires WellFormedEntry(e)
    ensures RowProfile(RenderEntry(e)) == EntryProfile(e)
  {
    var r := RenderEntry(e);
    RenderEntryShape(e);
    StripUnpadded(r);
    RenderEntryFields(e);
  }

  /** The columns of a printed entry are split back into its three fields. */
  lemma RenderEntryFields(e: ProfileEntry)
    requires WellFormedEntry(e)
    ensures Fields(RenderEntry(e)) == [e.name, e.host, e.valid]
  {
    var ws := [e.name, e.host, e.valid];
    var gaps := [e.nameGap, e.hostGap, ""];
    SpacedEntry(e);
    assert SeparatingGaps(gaps);
    FieldsOfSpaced(ws, gaps);
  }

  /** A printed entry is its three fields laid out with its two gaps. */
  lemma SpacedEntry(e: ProfileEntry)
    ensures Spaced([e.name, e.host, e.valid], [e.nameGap, e.hostGap, ""]) == RenderEntry(e)
  {
    var ws := [e.name, e.host, e.valid];
    var gaps := [e.nameGap, e.hostGap, ""];
    assert Spaced(ws[2..], gaps[2..]) == e.valid;
    assert Spaced(ws[1..], gaps[1..]) == e.host + (e.hostGap + e.valid);
  }

  /** A field holds no newline, which is whitespace. */
  lemma FieldLacksNewline(w: string)
    requires IsField(w)
    ensures '\n' !in w
  {
    assert IsSpace('\n');
  }

  /** A join of non-empty pieces starts with the first piece's first character and ends with the last piece's last. */
  lemma {:induction false} JoinEnds(pieces: seq<string>, sep: char)
    requires |pieces| >= 1 && forall k :: 0 <= k < |pieces| ==> pieces[k] != []
    ensures var t := Join(pieces, sep);
      t != [] && t[0] == pieces[0][0] && t[|t| - 1] == pieces[|pieces| - 1][|pieces[|pieces| - 1]| - 1]
    decreases |pieces|
  {
    if |pieces| > 1 {
      JoinEnds(pieces[1..], sep);
    }
  }

  /** The rows of a rendered table are the rendered entries, whatever the entry count. */
  lemma RenderedRows(header: string, entries: seq<ProfileEntry>)
    requires IsHeaderLine(header)
    requires forall k :: 0 <= k < |entries| ==> WellFormedEntry(entries[k])
    ensures ProfileRows(RenderTable(header, entries)) == RenderEntries(entries)
  {
    var rendered := RenderEntries(entries);
    var pieces := [header] + rendered;
    forall k | 0 <= k < |pieces| ensures pieces[k] != [] && '\n' !in pieces[k] {
      if k > 0 {
        RenderEntryShape(entries[k - 1]);
      }
    }
    var t := RenderTable(header, entries);
    JoinEnds(pieces, '\n');
    if entries != [] {
      RenderEntryShape(entries[|entries| - 1]);
    }
    StripUnpadded(t);
    SplitJoin(pieces, '\n');
  }

  /** Rendered entries parse back, row by row, to the names of the entries that read YES. */
  lemma CollectRendered(entries: seq<ProfileEntry>)
    requires forall k :: 0 <= k < |entries| ==> WellFormedEntry(entries[k])
    ensures Collect(RowProfiles(RenderEntries(entries))) == YesNames(entries)
  {
    var opts := RowProfiles(RenderEntries(entries));
    forall k | 0 <= k < |entries| ensures opts[k] == EntryProfile(entries[k]) {
      RenderEntryParse(entries[k]);
    }
    CollectEntryProfiles(opts, entries);
  }

  /** Collecting each entry's contribution yields the YES names. */
  lemma {:induction false} CollectEntryProfiles(opts: seq<Option<string>>, entries: seq<ProfileEntry>)
    requires |opts| == |entries| && forall k :: 0 <= k < |entries| ==> opts[k] == EntryProfile(entries[k])
    ensures Collect(opts) == YesNames(entries)
  {
    if entries != [] {
      CollectEntryProfiles(opts[..|opts| - 1], entries[..|entries| - 1]);
    }
  }

  /** The profiles parsed back from a rendered table are exactly the YES entries' names, in order. */
  lemma ParseRenderedTable(header: string, entries: seq<ProfileEntry>)
    requires IsHeaderLine(header)
    requires forall k :: 0 <= k < |entries| ==> WellFormedEntry(entries[k])
    ensures DetectedProfiles(Some(RenderTable(header, entries))) == YesNames(entries)
  {
    RenderedRows(header, entries);
    CollectRendered(entries);
  }

  /** A failed or missing CLI yields no profiles. */
  lemma CliFailureYieldsNoProfiles()
    ensures DetectedProfiles(None) == []
  {
  }

  // ===========================================================================
  // auto_detect_tracking_uri and configure_tracking_uri

  const LocalTrackingUri: string := "sqlite:///mlflow.db"
  const DatabricksScheme: string := "databricks://"

  /**
   * `auto_detect_tracking_uri`, with `profiles` what `detect_databricks_profiles`
   * returns (`DetectedProfiles` of the CLI's output).
   */
  function AutoDetectTrackingUri(env: Environ, profiles: seq<string>): string {
    var existing := Getenv(env, "MLFLOW_TRACKING_URI");
    if Truthy(existing) then existing.value
    else
      if profiles != [] then
        if "DEFAULT" in profiles then DatabricksScheme + "DEFAULT"
        else DatabricksScheme + profiles[0]
      else LocalTrackingUri
  }

  /** `configure_tracking_uri`. */
  function ConfigureTrackingUri(argsUri: Option<string>, env: Environ, profiles: seq<string>): string {
    if Truthy(argsUri) then argsUri.value else AutoDetectTrackingUri(env, profiles)
  }

  /**
   * The chosen URI is never empty, and it is the argument, the environment's
   * value, a detected profile under "databricks://", or the local SQLite store.
   */
  lemma TrackingUriProvenance(argsUri: Option<string>, env: Environ, profiles: seq<string>)
    ensures var uri := ConfigureTrackingUri(argsUri, env, profiles);
      && uri != ""
      && (|| (Truthy(argsUri) && uri == argsUri.value)
          || (!Truthy(argsUri) && "MLFLOW_TRACKING_URI" in env && uri == env["MLFLOW_TRACKING_URI"])
          || (exists p :: p in profiles && uri == DatabricksScheme + p)
          || uri == LocalTrackingUri)
  {
  }

  /**
   * An argument wins over everything, the environment over detection, and among
   * detected profiles DEFAULT over the first one listed, which is taken otherwise.
   */
  lemma TrackingUriPriority(argsUri: Option<string>, env: Environ, profiles: seq<string>)
    ensures Truthy(argsUri) ==> ConfigureTrackingUri(argsUri, env, profiles) == argsUri.value
    ensures !Truthy(argsUri) && Truthy(Getenv(env, "MLFLOW_TRACKING_URI")) ==>
      ConfigureTrackingUri(argsUri, env, profiles) == env["MLFLOW_TRACKING_URI"]
    ensures !Truthy(argsUri) && !Truthy(Getenv(env, "MLFLOW_TRACKING_URI")) && "DEFAULT" in profiles ==>
      ConfigureTrackingUri(argsUri, env, profiles) == "databricks://DEFAULT"
    ensures !Truthy(argsUri) && !Truthy(Getenv(env, "MLFLOW_TRACKING_URI")) && profiles != [] && "DEFAULT" !in profiles ==>
      ConfigureTrackingUri(argsUri, env, profiles) == "databricks://" + profiles[0]
  {
  }

  /** Nothing is collected exactly when nothing is present. */
  lemma {:induction false} CollectEmpty(opts: seq<Option<string>>)
    ensures Collect(opts) == [] <==> forall k :: 0 <= k < |opts| ==> opts[k].None?
  {
    if opts != [] {
      CollectEmpty(opts[..|opts| - 1]);
      assert forall k :: 0 <= k < |opts| - 1 ==> opts[..|opts| - 1][k] == opts[k];
    }
  }

  /** Auto-detection falls back to SQLite exactly when no profile was detected. */
  lemma LocalFallbackIff(env: Environ, profiles: seq<string>)
    requires !Truthy(Getenv(env, "MLFLOW_TRACKING_URI"))
    ensures AutoDetectTrackingUri(env, profiles) == LocalTrackingUri <==> profiles == []
  {
    if profiles != [] {
      var uri := AutoDetectTrackingUri(env, profiles);
      assert uri[1] == 'a' != LocalTrackingUri[1];
    }
  }

  /** No profile is detected exactly when no row of the table marks one valid. */
  lemma NoProfilesIff(rows: seq<string>)
    ensures ValidProfiles(rows) == [] <==> forall k :: 0 <= k < |rows| ==> RowProfiles(rows)[k].None?
  {
    CollectEmpty(RowProfiles(rows));
  }

  /** An auto-detected Databricks URI names a profile some row of the table marks valid. */
  lemma DetectedUriNamesValidProfile(env: Environ, rows: seq<string>)
    requires !Truthy(Getenv(env, "MLFLOW_TRACKING_URI")) && ValidProfiles(rows) != []
    ensures exists k :: 0 <= k < |rows| && RowProfile(rows[k]).Some?
                        && AutoDetectTrackingUri(env, ValidProfiles(rows)) == DatabricksScheme + RowProfile(rows[k]).value
  {
    var profiles := ValidProfiles(rows);
    var n: nat := if "DEFAULT" in profiles then IndexOf(profiles, "DEFAULT") else 0;
    assert AutoDetectTrackingUri(env, profiles) == DatabricksScheme + profiles[n];
    ValidProfilesSound(rows, n);
  }

  /** The position of a member of `s`. */
  function IndexOf(s: seq<string>, x: string): (k: nat)
    requires x in s
    ensures k < |s| && s[k] == x
  {
    if s[0] == x then 0 else IndexOf(s[1..], x) + 1
  }

  // ===========================================================================
  // configure_experiment_id

  /** One entry of `list_experiments`. */
  datatype Experiment = Experiment(id: string, name: string)

  /** The outcome of `configure_experiment_id`: the ID to use, or `sys.exit(code)`. */
  datatype ExperimentChoice = Chosen(id: string) | Exit(code: int)

  /** The index of the first experiment named `name`, as the script's `for` loops find it. */
  function FirstNamed(experiments: seq<Experiment>, name: string): (r: Option<nat>)
    ensures r.Some? ==> r.value < |experiments| && experiments[r.value].name == name
    ensures r.Some? ==> forall k :: 0 <= k < r.value ==> experiments[k].name != name
    ensures r.None? ==> forall k :: 0 <= k < |experiments| ==> experiments[k].name != name
  {
    if experiments == [] then None
    else if experiments[0].name == name then Some(0)
    else
      match FirstNamed(experiments[1..], name)
      case Some(k) => Some(k + 1)
      case None => None
  }

  /** The ID of the first experiment named `name`, or an exit with status 1. */
  function LookUpByName(experiments: seq<Experiment>, name: string): ExperimentChoice {
    match FirstNamed(experiments, name)
    case Some(k) => Chosen(experiments[k].id)
    case None => Exit(1)
  }

  /**
   * `configure_experiment_id`, with `created` what `create_experiment` returned
   * and `experiments` what `list_experiments` returned.
   */
  function ConfigureExperimentId(
    argsId: Option<string>, argsName: Option<string>, createNew: bool,
    env: Environ, created: Option<string>, experiments: seq<Experiment>): ExperimentChoice
  {
    var existing := Getenv(env, "MLFLOW_EXPERIMENT_ID");
    if Truthy(argsId) then Chosen(argsId.value)
    else if Truthy(existing) && !Truthy(argsName) then Chosen(existing.value)
    else if createNew && Truthy(argsName) then
      if Truthy(created) then Chosen(created.value) else LookUpByName(experiments, argsName.value)
    else if Truthy(argsName) then LookUpByName(experiments, argsName.value)
    else if experiments != [] then Chosen(experiments[0].id)
    else Exit(1)
  }

  /**
   * Any chosen ID comes from the argument, the environment, the creation call
   * or the listing, and the only exit status is 1.
   */
  lemma ExperimentIdProvenance(
    argsId: Option<string>, argsName: Option<string>, createNew: bool,
    env: Environ, created: Option<string>, experiments: seq<Experiment>)
    ensures var c := ConfigureExperimentId(argsId, argsName, createNew, env, created, experiments);
      && (c.Exit? ==> c.code == 1)
      && (c.Chosen? ==>
            || (Truthy(argsId) && c.id == argsId.value)
            || ("MLFLOW_EXPERIMENT_ID" in env && c.id == env["MLFLOW_EXPERIMENT_ID"])
            || (createNew && created.Some? && c.id == created.value)
            || (exists k :: 0 <= k < |experiments| && c.id == experiments[k].id))
  {
  }

  /**
   * An explicit ID is returned unchanged; the environment's ID is used when no name is given, and
   * with a name the environment plays no part.
   */
  lemma ExperimentIdFromArgsOrEnv(
    argsId: Option<string>, argsName: Option<string>, createNew: bool,
    env: Environ, created: Option<string>, experiments: seq<Experiment>)
    ensures Truthy(argsId) ==>
      ConfigureExperimentId(argsId, argsName, createNew, env, created, experiments) == Chosen(argsId.value)
    ensures !Truthy(argsId) && Truthy(Getenv(env, "MLFLOW_EXPERIMENT_ID")) && !Truthy(argsName) ==>
      ConfigureExperimentId(argsId, argsName, createNew, env, created, experiments) == Chosen(env["MLFLOW_EXPERIMENT_ID"])
    ensures !Truthy(argsId) && Truthy(argsName) ==>
      ConfigureExperimentId(argsId, argsName, createNew, env, created, experiments)
        == ConfigureExperimentId(argsId, argsName, createNew, map[], created, experiments)
  {
  }

  /**
   * With a name (and no explicit ID), the choice is a freshly created ID when
   * `--create` was given and creation succeeded, and otherwise the first listed
   * experiment carrying exactly that name; it exits exactly when neither exists.
   */
  lemma {:induction false} NamedExperimentHonoured(
    argsId: Option<string>, name: string, createNew: bool,
    env: Environ, created: Option<string>, experiments: seq<Experiment>)
    requires !Truthy(argsId) && name != ""
    ensures var c := ConfigureExperimentId(argsId, Some(name), createNew, env, created, experiments);
      && (createNew && Truthy(created) ==> c == Chosen(created.value))
      && (c.Exit? <==> !(createNew && Truthy(created)) && forall k :: 0 <= k < |experiments| ==> experiments[k].name != name)
      && (c.Chosen? && !(createNew && Truthy(created)) ==>
            exists k :: 0 <= k < |experiments| && experiments[k].name == name && c.id == experiments[k].id
                        && forall j :: 0 <= j < k ==> experiments[j].name != name)
  {
    var c := ConfigureExperimentId(argsId, Some(name), createNew, env, created, experiments);
    if !(createNew && Truthy(created)) {
      assert c == LookUpByName(experiments, name);
      var r := FirstNamed(experiments, name);
      if r.Some? {
        assert c.id == experiments[r.value].id;
      }
    }
  }

  /** With no ID, environment value or name, the first listed experiment is chosen; none listed exits. */
  lemma ExperimentAutoSelect(env: Environ, createNew: bool, created: Option<string>, experiments: seq<Experiment>)
    requires !Truthy(Getenv(env, "MLFLOW_EXPERIMENT_ID"))
    ensures var c := ConfigureExperimentId(None, None, createNew, env, created, experiments);
      && (c.Exit? <==> experiments == [])
      && (c.Chosen? ==> c.id == experiments[0].id)
  {
  }
}
