/**
 * `genLineProto`: renders the applications of a `/v2/apps` listing as
 * InfluxDB line protocol, one line per application, in listing order,
 * joined by "\n" with no trailing newline.
 *
 * Beside the encoder sits a reader for the subset of line protocol it
 * writes (a measurement, comma-separated tags, a space, comma-separated
 * integer fields with the `i` suffix; no escaping, no timestamp); the
 * round-trip lemmas say that reading the encoder's text gives back every
 * application's name and five counters, line by line.
 */
module LineProtocol {
  import opened Wrappers
  import opened Strings
  import opened Decimal
  import opened AppName

  /** One entry of the `apps` list: the id and the five counters the exporter reports. */
  datatype App = App(
    id: string,
    instances: int,
    tasksStaged: int,
    tasksRunning: int,
    tasksHealthy: int,
    tasksUnhealthy: int)

  /** Every id can be normalised (an empty id makes the exporter panic). */
  predicate AllNamed(data: seq<App>)
  {
    forall i :: 0 <= i < |data| ==> data[i].id != ""
  }

  /** The line for one application, as the exporter's format string spells it. */
  function Line(app: App): string
    requires app.id != ""
  {
    "marathon_apps,app_name=" + NormalizeAppName(app.id)
    + " instances=" + FormatInt(app.instances)
    + "i,tasks_staged=" + FormatInt(app.tasksStaged)
    + "i,tasks_running=" + FormatInt(app.tasksRunning)
    + "i,tasks_healthy=" + FormatInt(app.tasksHealthy)
    + "i,tasks_unhealthy=" + FormatInt(app.tasksUnhealthy) + "i"
  }

  /** The lines for a listing, one per entry, in order. */
  function Lines(data: seq<App>): seq<string>
    requires AllNamed(data)
  {
    seq(|data|, i requires 0 <= i < |data| => Line(data[i]))
  }

  /** The whole text the exporter prints for a listing. */
  function Encode(data: seq<App>): string
    requires AllNamed(data)
  {
    Join(Lines(data), "\n")
  }

  /** The first `i + 1` lines are the first `i` lines followed by the line of entry `i`. */
  lemma LinesPrefix(data: seq<App>, i: nat)
    requires AllNamed(data) && i < |data|
    ensures Lines(data)[..i + 1] == Lines(data)[..i] + [Line(data[i])]
  {
  }

  /**
   * The loop of `genLineProto`: format each entry, append the line to
   * `output`, then join the lines with newlines.
   */
  method GenLineProto(data: seq<App>) returns (text: string)
    requires AllNamed(data)
    ensures text == Encode(data)
  {
    var output: seq<string> := [];
    for i := 0 to |data|
      invariant output == Lines(data)[..i]
    {
      var line := Line(data[i]);
      LinesPrefix(data, i);
      output := output + [line];
    }
    assert Lines(data)[..|data|] == Lines(data);
    text := Join(output, "\n");
  }

  // ---------------------------------------------------------------------
  // Reading the text back

  /** A parsed line: measurement, tags as key/value pairs, integer fields as key/value pairs. */
  datatype Point = Point(measurement: string, tags: seq<(string, string)>, fields: seq<(string, int)>)

  /** `key=value` */
  function ParseTag(s: string): Option<(string, string)>
  {
    var kv := Split(s, '=');
    if |kv| == 2 then Some((kv[0], kv[1])) else None
  }

  /** `key=<integer>i` */
  function ParseField(s: string): Option<(string, int)>
  {
    var kv := Split(s, '=');
    if |kv| != 2 || |kv[1]| == 0 || kv[1][|kv[1]| - 1] != 'i' then None
    else match ParseInt(kv[1][..|kv[1]| - 1])
      case None => None
      case Some(v) => Some((kv[0], v))
  }

  function ParseTags(parts: seq<string>): Option<seq<(string, string)>>
  {
    if parts == [] then Some([])
    else
      var tag, tags := ParseTag(parts[0]), ParseTags(parts[1..]);
      if tag.Some? && tags.Some? then Some([tag.value] + tags.value) else None
  }

  function ParseFields(parts: seq<string>): Option<seq<(string, int)>>
  {
    if parts == [] then Some([])
    else
      var field, fields := ParseField(parts[0]), ParseFields(parts[1..]);
      if field.Some? && fields.Some? then Some([field.value] + fields.value) else None
  }

  /** Reads one line: `measurement[,tag...] field[,field...]`. */
  function ParseLine(line: string): Option<Point>
  {
    var sections := Split(line, ' ');
    if |sections| != 2 then None
    else
      var series := Split(sections[0], ',');
      match (ParseTags(series[1..]), ParseFields(Split(sections[1], ',')))
      case (Some(tags), Some(fields)) => Some(Point(series[0], tags, fields))
      case _ => None
  }

  /** Reads a whole text, one result per newline-separated line. */
  function ParseText(text: string): seq<Option<Point>>
  {
    var lines := Split(text, '\n');
    seq(|lines|, i requires 0 <= i < |lines| => ParseLine(lines[i]))
  }

  /** The point a line is meant to carry for an application. */
  function PointOf(app: App): Point
    requires app.id != ""
  {
    Point("marathon_apps", [("app_name", NormalizeAppName(app.id))],
          [("instances", app.instances), ("tasks_staged", app.tasksStaged),
           ("tasks_running", app.tasksRunning), ("tasks_healthy", app.tasksHealthy),
           ("tasks_unhealthy", app.tasksUnhealthy)])
  }

  /** A name that needs no escaping in a tag value and cannot break a line. */
  predicate PlainName(name: string)
  {
    ' ' !in name && ',' !in name && '=' !in name && '\n' !in name
  }

  // ---------------------------------------------------------------------
  // Properties of the encoder

  /** A formatted integer holds no character that the line format gives a meaning to. */
  lemma FormatIntIsPlain(n: int)
    ensures ' ' !in FormatInt(n) && ',' !in FormatInt(n) && '=' !in FormatInt(n)
    ensures '\n' !in FormatInt(n) && 'i' !in FormatInt(n)
  {
    var s := FormatInt(n);
    forall c | c in s ensures IsDigit(c) || c == '-' {
      var k :| 0 <= k < |s| && s[k] == c;
    }
  }

  function Field(key: string, v: int): string
  {
    key + "=" + FormatInt(v) + "i"
  }

  lemma ParseFieldOf(key: string, v: int)
    requires '=' !in key
    ensures ParseField(Field(key, v)) == Some((key, v))
  {
    FormatIntIsPlain(v);
    var d := FormatInt(v) + "i";
    assert '=' !in d;
    assert Field(key, v) == key + ['='] + d;
    SplitAtFirst(key, d, '=');
    SplitWithoutSeparator(d, '=');
    assert d[..|d| - 1] == FormatInt(v);
    ParseFormat(v);
  }

  /**
   * Regrouping of a concatenation, with the literal pieces of the format passed in as parameters.
   * Stated over variables rather than over the literals themselves, the regrouping is pure
   * sequence associativity; `LineShape` then instantiates it with the literals of `Line`.
   */
  lemma Regroup(
    p: string, s1: string, s2: string, s3: string, s4: string, s5: string,
    m: string, t: string, k1: string, k2: string, k3: string, k4: string, k5: string,
    name: string, d1: string, d2: string, d3: string, d4: string, d5: string)
    requires p == m + [','] + t + ['=']
    requires s1 == [' '] + k1 + "="
    requires s2 == "i" + [','] + k2 + "="
    requires s3 == "i" + [','] + k3 + "="
    requires s4 == "i" + [','] + k4 + "="
    requires s5 == "i" + [','] + k5 + "="
    ensures p + name + s1 + d1 + s2 + d2 + s3 + d3 + s4 + d4 + s5 + d5 + "i" ==
      (m + [','] + (t + ['='] + name)) + [' ']
      + ((k1 + "=" + d1 + "i") + [','] + ((k2 + "=" + d2 + "i") + [','] + ((k3 + "=" + d3 + "i") + [','] +
         ((k4 + "=" + d4 + "i") + [','] + (k5 + "=" + d5 + "i")))))
  {
  }

  /** The measurement and the one tag, as they stand before the space. */
  function Series(name: string): string
  {
    "marathon_apps" + [','] + ("app_name" + ['='] + name)
  }

  /** The five fields, as they stand after the space. */
  function FieldSet(app: App): string
  {
    Field("instances", app.instances) + [','] +
    (Field("tasks_staged", app.tasksStaged) + [','] +
    (Field("tasks_running", app.tasksRunning) + [','] +
    (Field("tasks_healthy", app.tasksHealthy) + [','] +
     Field("tasks_unhealthy", app.tasksUnhealthy))))
  }

  // Facts about the literal pieces of the format. They are spread over several
  // small lemmas, a few facts each, because one lemma stating them all is
  // costly for the solver; the same holds for the key lemmas further down.

  /** The head of the line format, cut at the separators the reader splits on. */
  lemma FormatHead()
    ensures "marathon_apps,app_name=" == "marathon_apps" + [','] + "app_name" + ['=']
    ensures " instances=" == [' '] + "instances" + "="
  {
  }

  /** The separators between the fields of the line format, cut the same way. */
  lemma FormatSeparators()
    ensures "i,tasks_staged=" == "i" + [','] + "tasks_staged" + "="
    ensures "i,tasks_running=" == "i" + [','] + "tasks_running" + "="
  {
  }

  /** The last separators of the line format. */
  lemma FormatLastSeparators()
    ensures "i,tasks_healthy=" == "i" + [','] + "tasks_healthy" + "="
    ensures "i,tasks_unhealthy=" == "i" + [','] + "tasks_unhealthy" + "="
  {
  }

  /** The line of an application, cut where the reader cuts it. */
  lemma LineShape(app: App)
    requires app.id != ""
    ensures Line(app) == Series(NormalizeAppName(app.id)) + [' '] + FieldSet(app)
  {
    FormatHead();
    FormatSeparators();
    FormatLastSeparators();
    Regroup("marathon_apps,app_name=", " instances=", "i,tasks_staged=", "i,tasks_running=",
      "i,tasks_healthy=", "i,tasks_unhealthy=",
      "marathon_apps", "app_name", "instances", "tasks_staged", "tasks_running", "tasks_healthy",
      "tasks_unhealthy",
      NormalizeAppName(app.id), FormatInt(app.instances), FormatInt(app.tasksStaged),
      FormatInt(app.tasksRunning), FormatInt(app.tasksHealthy), FormatInt(app.tasksUnhealthy));
  }

  lemma FieldIsPlain(key: string, v: int)
    requires ' ' !in key && ',' !in key && '\n' !in key
    ensures ' ' !in Field(key, v) && ',' !in Field(key, v) && '\n' !in Field(key, v)
  {
    FormatIntIsPlain(v);
  }

  /** Five pieces joined by `sep`, written the way FieldSet nests them. */
  function Chain5(f1: string, f2: string, f3: string, f4: string, f5: string, sep: char): string
  {
    f1 + [sep] + (f2 + [sep] + (f3 + [sep] + (f4 + [sep] + f5)))
  }

  lemma FieldSetIsChain(app: App)
    ensures FieldSet(app) == Chain5(Field("instances", app.instances), Field("tasks_staged", app.tasksStaged),
      Field("tasks_running", app.tasksRunning), Field("tasks_healthy", app.tasksHealthy),
      Field("tasks_unhealthy", app.tasksUnhealthy), ',')
  {
  }

  lemma Chain5Excludes(f1: string, f2: string, f3: string, f4: string, f5: string, sep: char, c: char)
    requires c != sep && c !in f1 && c !in f2 && c !in f3 && c !in f4 && c !in f5
    ensures c !in Chain5(f1, f2, f3, f4, f5, sep)
  {
  }

  lemma {:induction false} SplitChain5(f1: string, f2: string, f3: string, f4: string, f5: string, sep: char)
    requires sep !in f1 && sep !in f2 && sep !in f3 && sep !in f4 && sep !in f5
    ensures Split(Chain5(f1, f2, f3, f4, f5, sep), sep) == [f1, f2, f3, f4, f5]
  {
    SplitAtFirst(f1, f2 + [sep] + (f3 + [sep] + (f4 + [sep] + f5)), sep);
    SplitAtFirst(f2, f3 + [sep] + (f4 + [sep] + f5), sep);
    SplitAtFirst(f3, f4 + [sep] + f5, sep);
    SplitAtFirst(f4, f5, sep);
    SplitWithoutSeparator(f5, sep);
  }

  /** Five fields under plain keys, chained by commas: no space, no newline, and they split back apart. */
  lemma FieldsChain(k1: string, k2: string, k3: string, k4: string, k5: string,
                    v1: int, v2: int, v3: int, v4: int, v5: int)
    requires ' ' !in k1 && ',' !in k1 && '\n' !in k1
    requires ' ' !in k2 && ',' !in k2 && '\n' !in k2
    requires ' ' !in k3 && ',' !in k3 && '\n' !in k3
    requires ' ' !in k4 && ',' !in k4 && '\n' !in k4
    requires ' ' !in k5 && ',' !in k5 && '\n' !in k5
    ensures var chain := Chain5(Field(k1, v1), Field(k2, v2), Field(k3, v3), Field(k4, v4), Field(k5, v5), ',');
      && ' ' !in chain && '\n' !in chain
      && Split(chain, ',') == [Field(k1, v1), Field(k2, v2), Field(k3, v3), Field(k4, v4), Field(k5, v5)]
  {
    FieldIsPlain(k1, v1);
    FieldIsPlain(k2, v2);
    FieldIsPlain(k3, v3);
    FieldIsPlain(k4, v4);
    FieldIsPlain(k5, v5);
    var f1, f2, f3, f4, f5 := Field(k1, v1), Field(k2, v2), Field(k3, v3), Field(k4, v4), Field(k5, v5);
    Chain5Excludes(f1, f2, f3, f4, f5, ',', ' ');
    Chain5Excludes(f1, f2, f3, f4, f5, ',', '\n');
    SplitChain5(f1, f2, f3, f4, f5, ',');
  }

  /** The keys of the first fields hold no separator. */
  lemma FirstKeysArePlain()
    ensures ' ' !in "instances" && ',' !in "instances" && '\n' !in "instances"
    ensures ' ' !in "tasks_staged" && ',' !in "tasks_staged" && '\n' !in "tasks_staged"
    ensures ' ' !in "tasks_running" && ',' !in "tasks_running" && '\n' !in "tasks_running"
  {
  }

  /** The keys of the last fields hold no separator. */
  lemma LastKeysArePlain()
    ensures ' ' !in "tasks_healthy" && ',' !in "tasks_healthy" && '\n' !in "tasks_healthy"
    ensures ' ' !in "tasks_unhealthy" && ',' !in "tasks_unhealthy" && '\n' !in "tasks_unhealthy"
  {
  }

  /** The field set holds no space and no newline, and splits on commas into its five fields. */
  lemma FieldSetShape(app: App)
    ensures ' ' !in FieldSet(app) && '\n' !in FieldSet(app)
    ensures Split(FieldSet(app), ',') == [Field("instances", app.instances), Field("tasks_staged", app.tasksStaged),
      Field("tasks_running", app.tasksRunning), Field("tasks_healthy", app.tasksHealthy),
      Field("tasks_unhealthy", app.tasksUnhealthy)]
  {
    FirstKeysArePlain();
    LastKeysArePlain();
    FieldsChain("instances", "tasks_staged", "tasks_running", "tasks_healthy", "tasks_unhealthy",
      app.instances, app.tasksStaged, app.tasksRunning, app.tasksHealthy, app.tasksUnhealthy);
    FieldSetIsChain(app);
  }

  /** The series reads back as the measurement and the `app_name` tag. */
  lemma SeriesRoundTrip(name: string)
    requires PlainName(name)
    ensures ' ' !in Series(name)
    ensures var series := Split(Series(name), ',');
      series[0] == "marathon_apps" && ParseTags(series[1..]) == Some([("app_name", name)])
  {
    var tag := "app_name" + ['='] + name;
    assert ' ' !in "marathon_apps" && ' ' !in "app_name";
    assert ',' !in "marathon_apps" && ',' !in "app_name";
    assert '=' !in "app_name";
    SplitAtFirst("marathon_apps", tag, ',');
    SplitWithoutSeparator(tag, ',');
    assert Split(Series(name), ',')[1..] == [tag];
    SplitAtFirst("app_name", name, '=');
    SplitWithoutSeparator(name, '=');
    assert ParseTag(tag) == Some(("app_name", name));
    assert [tag][1..] == [];
    assert [("app_name", name)] + [] == [("app_name", name)];
  }

  /** Five fields that each read back read back as a list. */
  lemma ParseFields5(f1: string, f2: string, f3: string, f4: string, f5: string,
                     k1: (string, int), k2: (string, int), k3: (string, int), k4: (string, int), k5: (string, int))
    requires ParseField(f1) == Some(k1) && ParseField(f2) == Some(k2) && ParseField(f3) == Some(k3)
    requires ParseField(f4) == Some(k4) && ParseField(f5) == Some(k5)
    ensures ParseFields([f1, f2, f3, f4, f5]) == Some([k1, k2, k3, k4, k5])
  {
    assert [f1, f2, f3, f4, f5][1..] == [f2, f3, f4, f5];
    assert [f2, f3, f4, f5][1..] == [f3, f4, f5];
    assert [f3, f4, f5][1..] == [f4, f5];
    assert [f4, f5][1..] == [f5];
    assert [f5][1..] == [];
    assert [k5] + [] == [k5];
    assert ParseFields([f5]) == Some([k5]);
    assert [k4] + [k5] == [k4, k5];
    assert ParseFields([f4, f5]) == Some([k4, k5]);
    assert [k3] + [k4, k5] == [k3, k4, k5];
    assert ParseFields([f3, f4, f5]) == Some([k3, k4, k5]);
    assert [k2] + [k3, k4, k5] == [k2, k3, k4, k5];
    assert ParseFields([f2, f3, f4, f5]) == Some([k2, k3, k4, k5]);
    assert [k1] + [k2, k3, k4, k5] == [k1, k2, k3, k4, k5];
  }

  /** The field set reads back as the five counters under their keys. */
  lemma FieldSetRoundTrip(app: App)
    ensures ParseFields(Split(FieldSet(app), ',')) == Some([("instances", app.instances),
      ("tasks_staged", app.tasksStaged), ("tasks_running", app.tasksRunning),
      ("tasks_healthy", app.tasksHealthy), ("tasks_unhealthy", app.tasksUnhealthy)])
  {
    FieldSetShape(app);
    assert '=' !in "instances" && '=' !in "tasks_staged" && '=' !in "tasks_running" by {}
    assert '=' !in "tasks_healthy" && '=' !in "tasks_unhealthy" by {}
    ParseFieldOf("instances", app.instances);
    ParseFieldOf("tasks_staged", app.tasksStaged);
    ParseFieldOf("tasks_running", app.tasksRunning);
    ParseFieldOf("tasks_healthy", app.tasksHealthy);
    ParseFieldOf("tasks_unhealthy", app.tasksUnhealthy);
    ParseFields5(Field("instances", app.instances), Field("tasks_staged", app.tasksStaged),
      Field("tasks_running", app.tasksRunning), Field("tasks_healthy", app.tasksHealthy),
      Field("tasks_unhealthy", app.tasksUnhealthy),
      ("instances", app.instances), ("tasks_staged", app.tasksStaged), ("tasks_running", app.tasksRunning),
      ("tasks_healthy", app.tasksHealthy), ("tasks_unhealthy", app.tasksUnhealthy));
  }

  /** Reading the line of an application gives back its name and its five counters, in order. */
  lemma LineRoundTrip(app: App)
    requires app.id != "" && PlainName(NormalizeAppName(app.id))
    ensures ParseLine(Line(app)) == Some(PointOf(app))
  {
    var name := NormalizeAppName(app.id);
    LineShape(app);
    SeriesRoundTrip(name);
    FieldSetShape(app);
    SplitAtFirst(Series(name), FieldSet(app), ' ');
    SplitWithoutSeparator(FieldSet(app), ' ');
    assert Split(Line(app), ' ') == [Series(name), FieldSet(app)];
    FieldSetRoundTrip(app);
  }

  /** A line never holds a newline unless the id does. */
  lemma LineHasNoNewline(app: App)
    requires app.id != "" && '\n' !in app.id
    ensures '\n' !in Line(app)
  {
    NormalizeKeepsOtherChars(app.id, '\n');
    LineShape(app);
    FieldSetShape(app);
    assert '\n' !in "marathon_apps" && '\n' !in "app_name";
  }

  /** An empty listing, and only an empty listing, gives the empty text. */
  lemma EncodeEmpty(data: seq<App>)
    requires AllNamed(data)
    ensures Encode(data) == "" <==> data == []
  {
    if data != [] {
      var lines := Lines(data);
      assert |lines[0]| > 0;
      assert |Join(lines, "\n")| >= |lines[0]|;
    }
  }

  /**
   * When no id holds a newline, the text splits on newlines into exactly one
   * line per application, in listing order: entries are neither merged,
   * dropped nor reordered, even when two of them share a name.
   */
  lemma EncodeSplitsIntoLines(data: seq<App>)
    requires AllNamed(data) && data != []
    requires forall i :: 0 <= i < |data| ==> '\n' !in data[i].id
    ensures Split(Encode(data), '\n') == Lines(data)
    ensures |Split(Encode(data), '\n')| == |data|
  {
    var lines := Lines(data);
    forall k | 0 <= k < |lines| ensures '\n' !in lines[k] {
      LineHasNoNewline(data[k]);
    }
    SplitJoin(lines, '\n');
  }

  /** The text ends with the last line's `i` suffix, never with a newline. */
  lemma EncodeEnding(data: seq<App>)
    requires AllNamed(data) && data != []
    ensures |Encode(data)| > 0 && Encode(data)[|Encode(data)| - 1] == 'i'
  {
    var lines := Lines(data);
    JoinEndsWithLast(lines, "\n");
    var last := Line(data[|data| - 1]);
    assert last[|last| - 1] == 'i';
  }

  /**
   * Reading the encoder's text back gives, line by line, the name and the
   * five counters of each application, in listing order.
   */
  lemma EncodeRoundTrip(data: seq<App>)
    requires AllNamed(data) && data != []
    requires forall i :: 0 <= i < |data| ==> PlainName(NormalizeAppName(data[i].id))
    ensures |ParseText(Encode(data))| == |data|
    ensures forall i :: 0 <= i < |data| ==> ParseText(Encode(data))[i] == Some(PointOf(data[i]))
  {
    forall i | 0 <= i < |data| ensures '\n' !in data[i].id {
      NormalizeKeepsOtherChars(data[i].id, '\n');
    }
    EncodeSplitsIntoLines(data);
    forall i | 0 <= i < |data| ensures ParseText(Encode(data))[i] == Some(PointOf(data[i])) {
      LineRoundTrip(data[i]);
    }
  }

  /**
   * The text for a one-entry listing with id "/a/b": the name loses its
   * leading slash and the counters appear in the format's fixed order.
   */
  lemma EncodeExample()
    ensures Encode([App("/a/b", 2, 0, 2, 2, 0)]) ==
      "marathon_apps,app_name=" + "a_b" + " instances=" + "2" + "i,tasks_staged=" + "0"
      + "i,tasks_running=" + "2" + "i,tasks_healthy=" + "2" + "i,tasks_unhealthy=" + "0" + "i"
  {
    var app := App("/a/b", 2, 0, 2, 2, 0);
    assert Lines([app]) == [Line(app)];
    assert NormalizeAppName("/a/b") == "a_b";
    assert FormatInt(2) == "2" && FormatInt(0) == "0";
  }
}
