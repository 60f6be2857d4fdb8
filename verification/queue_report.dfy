/** MonitorQueueRequestAgent's `format_structured_response`: the fixed-layout
    text report built from a `monitoringInstances` tool result. The
    specification functions render each section; the method builds the
    report with the source's loops and is proved equal to them. */
module QueueReport {
  import opened Wrappers
  import opened Text
  import opened Json
  import opened Mcp

  /** A line of 80 copies of `c`. */
  function Rule(c: char): string {
    Repeat(c, 80) + "\n"
  }

  function Header(): string {
    Rule('=') + "MONITOR QUEUE REQUEST - INTEGRATION INSTANCES\n" + Rule('=') + "\n"
  }

  function Footer(): string {
    Rule('=') + "END OF REPORT\n" + Rule('=')
  }

  function NoDataSection(): string {
    "STATUS: NO DATA\n" + Rule('-') + "No data returned from the monitoring API.\n\n"
  }

  function NoInstancesSection(): string {
    "INTEGRATION INSTANCES:\n" + Rule('-') + "No instances found matching the criteria.\n\n"
  }

  /** `str(v)` in an f-string: containers are rendered by `repr`, which is
      a parameter. */
  function Show(v: Json, repr: Json -> string): string {
    match v
    case JNull => "None"
    case JBool(b) => if b then "True" else "False"
    case JNum(n) => IntToString(n)
    case JStr(s) => s
    case _ => repr(v)
  }

  /** `d.get(k)`: the value, or `None` when the key is missing. */
  function Value(f: seq<(string, Json)>, k: string): Json {
    Lookup(f, k).GetOr(JNull)
  }

  /** `d.get(a) or d.get(b)` */
  function Field(f: seq<(string, Json)>, a: string, b: string): (v: Json)
    ensures Truthy(v) <==> Truthy(Value(f, a)) || Truthy(Value(f, b))
  {
    if Truthy(Value(f, a)) then Value(f, a) else Value(f, b)
  }

  /** Two pieces of output in sequence: the first exception wins. */
  function Cat(a: PyResult<string>, b: PyResult<string>): (r: PyResult<string>)
    ensures r.Ok? <==> a.Ok? && b.Ok?
    ensures r.Ok? ==> r.value == a.value + b.value
    ensures a.Raise? ==> r == a
  {
    match a
    case Raise(e) => Raise(e)
    case Ok(x) =>
      match b
      case Raise(e) => Raise(e)
      case Ok(y) => Ok(x + y)
  }

  lemma CatAssoc(a: PyResult<string>, b: PyResult<string>, c: PyResult<string>)
    ensures Cat(Cat(a, b), c) == Cat(a, Cat(b, c))
  {
    if a.Ok? && b.Ok? && c.Ok? {
      assert (a.value + b.value) + c.value == a.value + (b.value + c.value);
    }
  }

  /** The pieces of a text, in order. */
  function Concat(pieces: seq<string>): string {
    if pieces == [] then "" else pieces[0] + Concat(pieces[1..])
  }

  // ---- The error report

  /** The line one content part adds under `STATUS: ERROR`. */
  function ErrorLine(part: Json, repr: Json -> string): PyResult<string> {
    match IsTextPart(part)
    case Raise(e) => Raise(e)
    case Ok(isText) =>
      if !isText then Ok("")
      else Ok("ERROR MESSAGE: " + Show(Lookup(part.fields, "text").GetOr(JStr("Unknown error")), repr) + "\n")
  }

  /** The lines of all parts, in order. */
  function ErrorLines(parts: seq<Json>, repr: Json -> string): PyResult<string> {
    if parts == [] then Ok("") else Cat(ErrorLine(parts[0], repr), ErrorLines(parts[1..], repr))
  }

  /** The messages of the text parts, in order: a reference for what the
      error report lists. */
  function Messages(parts: seq<Json>): seq<Json>
    requires forall k :: 0 <= k < |parts| ==> parts[k].JObj?
  {
    if parts == [] then []
    else if Lookup(parts[0].fields, "type") == Some(JStr("text"))
    then [Lookup(parts[0].fields, "text").GetOr(JStr("Unknown error"))] + Messages(parts[1..])
    else Messages(parts[1..])
  }

  function MessageLines(messages: seq<Json>, repr: Json -> string): string {
    if messages == [] then "" else "ERROR MESSAGE: " + Show(messages[0], repr) + "\n" + MessageLines(messages[1..], repr)
  }

  /** When every part is a dict, the error section holds one line per text
      part, with its text, in order, and nothing else. */
  lemma {:induction false} ErrorLinesListMessages(parts: seq<Json>, repr: Json -> string)
    requires forall k :: 0 <= k < |parts| ==> parts[k].JObj?
    ensures ErrorLines(parts, repr) == Ok(MessageLines(Messages(parts), repr))
  {
    if parts != [] {
      ErrorLinesListMessages(parts[1..], repr);
      if Lookup(parts[0].fields, "type") == Some(JStr("text")) {
        var m := Lookup(parts[0].fields, "text").GetOr(JStr("Unknown error"));
        var ms := [m] + Messages(parts[1..]);
        assert ms[0] == m && ms[1..] == Messages(parts[1..]);
        assert ErrorLine(parts[0], repr) == Ok("ERROR MESSAGE: " + Show(m, repr) + "\n");
      } else {
        assert ErrorLine(parts[0], repr) == Ok("");
        CatEmpty(ErrorLines(parts[1..], repr));
      }
    }
  }

  // ---- The content scan

  /** Where the scan over the content parts stands: still scanning with the
      last parsed value, or ended by a text that is not JSON. */
  datatype Scan = Scanning(parsed: Option<Json>) | RawText(text: string)

  /** `item.get('text', '')` as the raw section prints it; only a string
      text gets that far. */
  function ShownText(part: Json): (t: string)
    requires part.JObj?
    ensures !HasKey(part.fields, "text") ==> t == ""
    ensures HasKey(part.fields, "text") && PartText(part).JStr? ==> t == PartText(part).s
  {
    match Lookup(part.fields, "text")
    case Some(JStr(text)) => text
    case _ => ""
  }

  /** One part of the scan: a text part's text replaces the parsed value,
      or ends the scan when it is not JSON. */
  function ScanStep(parsed: Option<Json>, part: Json, parse: Parser): (r: PyResult<Scan>)
    ensures r.Ok? && r.value.RawText? ==>
              part.JObj? && Lookup(part.fields, "type") == Some(JStr("text")) && PartText(part).JStr? &&
              parse(PartText(part).s).None? && r.value.text == ShownText(part)
  {
    match IsTextPart(part)
    case Raise(e) => Raise(e)
    case Ok(isText) =>
      if !isText then Ok(Scanning(parsed))
      else
        match Loads(PartText(part), parse)
        case Raise(e) => Raise(e)
        case Ok(loaded) =>
          if loaded.None? then Ok(RawText(ShownText(part))) else Ok(Scanning(loaded))
  }

  /** The scan from a given point: it stops at the first text that is not
      JSON, so the parts after it are never looked at. */
  function ScanParts(parsed: Option<Json>, parts: seq<Json>, parse: Parser): PyResult<Scan>
    decreases |parts|
  {
    if parts == [] then Ok(Scanning(parsed))
    else
      match ScanStep(parsed, parts[0], parse)
      case Raise(e) => Raise(e)
      case Ok(s) =>
        if s.RawText? then Ok(s) else ScanParts(s.parsed, parts[1..], parse)
  }

  /** A part the scan passes over: a dict that is not a text part, or a
      text part whose text is JSON. */
  predicate Passes(part: Json, parse: Parser) {
    part.JObj? &&
    (Lookup(part.fields, "type") == Some(JStr("text")) ==> PartText(part).JStr? && parse(PartText(part).s).Some?)
  }

  /** A text that is not JSON ends the output with the raw section, even
      when earlier parts parsed and whatever the later parts hold. */
  lemma {:induction false} RawTextEndsScan(parsed: Option<Json>, parts: seq<Json>, parse: Parser, i: nat)
    requires i < |parts| && forall j :: 0 <= j < i ==> Passes(parts[j], parse)
    requires parts[i].JObj? && Lookup(parts[i].fields, "type") == Some(JStr("text"))
    requires PartText(parts[i]).JStr? && parse(PartText(parts[i]).s).None?
    ensures ScanParts(parsed, parts, parse) == Ok(RawText(ShownText(parts[i])))
    decreases |parts|
  {
    if i == 0 {
      assert ScanStep(parsed, parts[0], parse) == Ok(RawText(ShownText(parts[0])));
    } else {
      var s := ScanStep(parsed, parts[0], parse);
      assert Passes(parts[0], parse);
      assert s.Ok? && s.value.Scanning?;
      RawTextEndsScan(s.value.parsed, parts[1..], parse, i - 1);
    }
  }

  /** When every part passes, the parsed value is that of the last text
      part; parts after it leave it alone. */
  lemma {:induction false} LastParseWins(parsed: Option<Json>, parts: seq<Json>, parse: Parser, i: nat)
    requires forall j :: 0 <= j < |parts| ==> Passes(parts[j], parse)
    requires i < |parts| && parts[i].JObj? && Lookup(parts[i].fields, "type") == Some(JStr("text"))
    requires PartText(parts[i]).JStr?
    requires forall j :: i < j < |parts| ==> parts[j].JObj? && Lookup(parts[j].fields, "type") != Some(JStr("text"))
    ensures ScanParts(parsed, parts, parse) == Ok(Scanning(parse(PartText(parts[i]).s)))
    decreases |parts|
  {
    var s := ScanStep(parsed, parts[0], parse);
    assert Passes(parts[0], parse);
    if i == 0 {
      assert s == Ok(Scanning(parse(PartText(parts[0]).s)));
      NoTextKeepsParsed(parse(PartText(parts[0]).s), parts[1..], parse);
    } else {
      LastParseWins(s.value.parsed, parts[1..], parse, i - 1);
    }
  }

  /** Dicts that are not text parts leave the parsed value alone. */
  lemma {:induction false} NoTextKeepsParsed(parsed: Option<Json>, parts: seq<Json>, parse: Parser)
    requires forall j :: 0 <= j < |parts| ==> parts[j].JObj? && Lookup(parts[j].fields, "type") != Some(JStr("text"))
    ensures ScanParts(parsed, parts, parse) == Ok(Scanning(parsed))
  {
    if parts != [] {
      NoTextKeepsParsed(parsed, parts[1..], parse);
    }
  }

  // ---- The success report

  /** A summary line, present only when the key is: the value itself, or
      `Yes`/`No` for `hasMore`. */
  function SummaryLine(p: Json, key: string, caption: string, yesNo: bool, repr: Json -> string): PyResult<string> {
    match In(key, p)
    case Raise(e) => Raise(e)
    case Ok(has) =>
      if !has then Ok("")
      else
        match Subscript(p, key)
        case Raise(e) => Raise(e)
        case Ok(v) =>
          Ok(caption + ": " + (if yesNo then (if Truthy(v) then "Yes" else "No") else Show(v, repr)) + "\n")
  }

  function Summary(p: Json, repr: Json -> string): PyResult<string> {
    Cat(Ok("SUMMARY:\n" + Rule('-')),
    Cat(SummaryLine(p, "totalRecords", "Total Records", false, repr),
    Cat(SummaryLine(p, "retrievedRecords", "Retrieved Records", false, repr),
    Cat(SummaryLine(p, "timeWindow", "Time Window", false, repr),
    Cat(SummaryLine(p, "hasMore", "Has More", true, repr), Ok("\n"))))))
  }

  /** Only the keys present give summary lines; `hasMore` is rendered as
      `Yes` or `No` after its truth value. */
  lemma SummaryOfObject(f: seq<(string, Json)>, repr: Json -> string)
    ensures (!HasKey(f, "totalRecords") && !HasKey(f, "retrievedRecords") && !HasKey(f, "timeWindow") &&
             !HasKey(f, "hasMore")) ==> Summary(JObj(f), repr) == Ok("SUMMARY:\n" + Rule('-') + "\n")
    ensures HasKey(f, "hasMore") ==>
              SummaryLine(JObj(f), "hasMore", "Has More", true, repr) ==
              Ok(if Truthy(Lookup(f, "hasMore").value) then "Has More: Yes\n" else "Has More: No\n")
  {
    if !HasKey(f, "totalRecords") && !HasKey(f, "retrievedRecords") && !HasKey(f, "timeWindow") && !HasKey(f, "hasMore") {
      assert "" + ("" + ("" + ("" + "\n"))) == "\n";
    }
    if HasKey(f, "hasMore") {
      assert "Has More" + ": " + "Yes" + "\n" == "Has More: Yes\n";
      assert "Has More" + ": " + "No" + "\n" == "Has More: No\n";
    }
  }

  /** An optional line of an instance block: shown when the value is truthy. */
  function LineIf(caption: string, v: Json, repr: Json -> string): string {
    if Truthy(v) then "  " + caption + ": " + Show(v, repr) + "\n" else ""
  }

  /** A tracking-variable line: shown when the name is truthy, with `N/A`
      for a missing or falsy value. */
  function TrackingLine(caption: string, f: seq<(string, Json)>, nameA: string, nameB: string,
                        valueA: string, valueB: string, repr: Json -> string): string {
    var name := Field(f, nameA, nameB);
    var v := Field(f, valueA, valueB);
    if !Truthy(name) then ""
    else "  " + caption + ": " + Show(name, repr) + " = " + Show(if Truthy(v) then v else JStr("N/A"), repr) + "\n"
  }

  /** The duration line, when `duration` is present: milliseconds, whole
      seconds, whole minutes, by floor division; a boolean counts as 0 or 1
      and anything else that is not a number raises `TypeError`. */
  function DurationLine(f: seq<(string, Json)>, repr: Json -> string): PyResult<string> {
    if !HasKey(f, "duration") then Ok("")
    else
      var ms := Lookup(f, "duration").value;
      match ms
      case JNum(n) => Ok(DurationText(Show(ms, repr), n))
      case JBool(b) => Ok(DurationText(Show(ms, repr), if b then 1 else 0))
      case _ => Raise(TypeError)
  }

  function DurationText(shown: string, ms: int): string {
    "  Duration: " + shown + "ms (" + IntToString(ms / 1000) + "s / " + IntToString(ms / 1000 / 60) + "m)\n"
  }

  /** Division by 1000 then 60 is division by 60000 (floor division, for
      negative values too). */
  lemma MinutesOfMilliseconds(ms: int)
    ensures ms / 1000 / 60 == ms / 60000
  {
    var q1, r1 := ms / 1000, ms % 1000;
    var q2, r2 := q1 / 60, q1 % 60;
    assert ms == 60000 * q2 + (1000 * r2 + r1);
    DivUnique(ms, 60000, q2, 1000 * r2 + r1);
  }

  /** The quotient is the one `q` with `a == d * q + r` and `0 <= r < d`. */
  lemma DivUnique(a: int, d: int, q: int, r: int)
    requires 0 < d && a == d * q + r && 0 <= r < d
    ensures a / d == q
  {
    var q0, r0 := a / d, a % d;
    assert d * (q - q0) == r0 - r;
    if q0 < q {
      MulAtLeast(d, q - q0);
    } else if q0 > q {
      MulAtLeast(d, q0 - q);
    }
  }

  lemma {:induction false} MulAtLeast(d: int, x: int)
    requires 0 < d && 1 <= x
    ensures d <= d * x
    decreases x
  {
    if x > 1 {
      MulAtLeast(d, x - 1);
      assert d * x == d * (x - 1) + d;
    }
  }

  /** A numeric duration shows its milliseconds, its seconds and its minutes. */
  lemma DurationOfNumber(f: seq<(string, Json)>, ms: int, repr: Json -> string)
    requires Lookup(f, "duration") == Some(JNum(ms))
    ensures DurationLine(f, repr) ==
            Ok("  Duration: " + IntToString(ms) + "ms (" + IntToString(ms / 1000) + "s / " +
               IntToString(ms / 60000) + "m)\n")
  {
    MinutesOfMilliseconds(ms);
  }

  /** `has_faults is not None` */
  function FaultsLine(v: Json, repr: Json -> string): string {
    if v != JNull then "  Has Recoverable Faults: " + Show(v, repr) + "\n" else ""
  }

  function BlockHeading(index: nat): string {
    "\nInstance #" + NatToString(index) + ":\n" + "  " + Repeat('-', 78) + "\n"
  }

  /** The optional lines of an instance block, in the source's order. */
  function BlockLines(f: seq<(string, Json)>, duration: string, repr: Json -> string): seq<string> {
    [LineIf("Instance ID", Field(f, "instance-id", "instanceId"), repr),
     LineIf("Run ID", Field(f, "run-id", "runId"), repr),
     LineIf("Integration", Field(f, "integration-name", "integrationName"), repr),
     LineIf("Integration ID", Field(f, "integration-id", "integrationId"), repr),
     LineIf("Version", Field(f, "integration-version", "integrationVersion"), repr),
     LineIf("Status", Value(f, "status"), repr),
     LineIf("Date", Value(f, "date"), repr),
     LineIf("Created", Field(f, "creation-date", "creationDate"), repr),
     LineIf("Last Tracked", Field(f, "last-tracked-time", "lastTrackedTime"), repr),
     duration,
     TrackingLine("Primary Key", f, "pk-name", "pkName", "pk-value", "pkValue", repr),
     TrackingLine("Secondary Key", f, "secondary-tracking-name", "secondaryTrackingName",
                  "secondary-tracking-value", "secondaryTrackingValue", repr),
     TrackingLine("Tertiary Key", f, "tertiary-tracking-name", "tertiaryTrackingName",
                  "tertiary-tracking-value", "tertiaryTrackingValue", repr),
     LineIf("Project Code", Field(f, "project-code", "projectCode"), repr),
     FaultsLine(Field(f, "has-recoverable-faults", "hasRecoverableFaults"), repr)]
  }

  /** The block of one instance; an instance that is not a dict raises
      `AttributeError` at its first `get`. */
  function InstanceBlock(index: nat, instance: Json, repr: Json -> string): (r: PyResult<string>)
    ensures !instance.JObj? ==> r == Raise(AttributeError)
    ensures instance.JObj? ==> (r.Ok? <==> DurationLine(instance.fields, repr).Ok?)
  {
    if !instance.JObj? then Raise(AttributeError)
    else
      match DurationLine(instance.fields, repr)
      case Raise(e) => Raise(e)
      case Ok(duration) => Ok(BlockHeading(index) + Concat(BlockLines(instance.fields, duration, repr)))
  }

  /** The camelCase key is used when the hyphenated one is missing or
      falsy: the instance-ID line then shows the camelCase value. */
  lemma CamelCaseFallback(f: seq<(string, Json)>, id: string, repr: Json -> string)
    requires !Truthy(Value(f, "instance-id")) && Value(f, "instanceId") == JStr(id) && id != []
    ensures LineIf("Instance ID", Field(f, "instance-id", "instanceId"), repr) == "  Instance ID: " + id + "\n"
  {
    assert Field(f, "instance-id", "instanceId") == JStr(id);
    assert "  " + "Instance ID" + ": " + id + "\n" == "  Instance ID: " + id + "\n";
  }

  /** A tracking name without a value is shown with `N/A`. */
  lemma TrackingValueDefaultsToNA(f: seq<(string, Json)>, name: string, repr: Json -> string)
    requires Value(f, "pk-name") == JStr(name) && name != []
    requires !Truthy(Value(f, "pk-value")) && !Truthy(Value(f, "pkValue"))
    ensures TrackingLine("Primary Key", f, "pk-name", "pkName", "pk-value", "pkValue", repr) ==
            "  Primary Key: " + name + " = N/A\n"
  {
  }

  /** The pieces `render(first, items[0])`, `render(first + 1, items[1])`,
      ... concatenated, up to the first that raises. */
  function Numbered(items: seq<Json>, first: nat, render: (nat, Json) -> PyResult<string>): PyResult<string> {
    if items == [] then Ok("") else Cat(render(first, items[0]), Numbered(items[1..], first + 1, render))
  }

  /** A numbered concatenation split anywhere: the part after `k` items is
      numbered from `first + k`. */
  lemma {:induction false} NumberedSplit(items: seq<Json>, first: nat, k: nat, render: (nat, Json) -> PyResult<string>)
    requires k <= |items|
    ensures Numbered(items, first, render) ==
            Cat(Numbered(items[..k], first, render), Numbered(items[k..], first + k, render))
    decreases k
  {
    if k == 0 {
      assert items[..k] == [] && items[k..] == items;
      CatEmpty(Numbered(items, first, render));
    } else {
      var head := render(first, items[0]);
      var front := Numbered(items[1..][..k - 1], first + 1, render);
      var back := Numbered(items[k..], first + k, render);
      NumberedSplit(items[1..], first + 1, k - 1, render);
      assert items[1..][k - 1..] == items[k..];
      assert Numbered(items[1..], first + 1, render) == Cat(front, back);
      assert Numbered(items, first, render) == Cat(head, Cat(front, back));
      assert items[..k][0] == items[0] && items[..k][1..] == items[1..][..k - 1];
      assert Numbered(items[..k], first, render) == Cat(head, front);
      CatAssoc(head, front, back);
    }
  }

  /** Item `k` sits between the items before it and those after it, with
      number `first + k`. */
  lemma NumberedPick(items: seq<Json>, first: nat, k: nat, render: (nat, Json) -> PyResult<string>)
    requires k < |items|
    ensures Numbered(items, first, render) ==
            Cat(Numbered(items[..k], first, render),
                Cat(render(first + k, items[k]), Numbered(items[k + 1..], first + k + 1, render)))
  {
    NumberedSplit(items, first, k, render);
    assert items[k..][0] == items[k] && items[k..][1..] == items[k + 1..];
  }

  /** The blocks of the instances, numbered from `first` in item order. */
  function InstanceBlocks(items: seq<Json>, first: nat, repr: Json -> string): PyResult<string> {
    Numbered(items, first, (index: nat, instance: Json) => InstanceBlock(index, instance, repr))
  }

  /** Instance `k` of the list (from 0) is rendered as `Instance #k+1`,
      between the blocks of the instances before it and those after it. */
  lemma InstanceNumbering(items: seq<Json>, k: nat, repr: Json -> string)
    requires k < |items|
    ensures InstanceBlocks(items, 1, repr) ==
            Cat(InstanceBlocks(items[..k], 1, repr),
                Cat(InstanceBlock(k + 1, items[k], repr), InstanceBlocks(items[k + 1..], k + 2, repr)))
  {
    NumberedPick(items, 1, k, (index: nat, instance: Json) => InstanceBlock(index, instance, repr));
  }

  /** The instances section: `len(items)` raises for a truthy number or
      boolean, and iteration yields a string's characters or a dict's keys,
      which then fail as instances. */
  function InstancesSection(items: Json, repr: Json -> string): PyResult<string> {
    if !Truthy(items) then Ok(NoInstancesSection())
    else if items.JNum? || items.JBool? then Raise(TypeError)
    else
      match Elements(items)
      case Raise(e) => Raise(e)
      case Ok(elems) =>
        Cat(Ok("INTEGRATION INSTANCES:\n" + Rule('-')), Cat(InstanceBlocks(elems, 1, repr), Ok("\n")))
  }

  /** Everything after `STATUS: SUCCESS` up to the footer. */
  function SuccessBody(p: Json, repr: Json -> string): PyResult<string> {
    Cat(Summary(p, repr),
        match Get(p, "items", JArr([]))
        case Raise(e) => Raise(e)
        case Ok(items) => InstancesSection(items, repr))
  }

  // ---- The whole report

  /** The report after the header when `isError` is set. */
  function ErrorBody(content: Json, repr: Json -> string): PyResult<string> {
    match Elements(content)
    case Raise(e) => Raise(e)
    case Ok(parts) => Cat(Ok("STATUS: ERROR\n" + Rule('-')), Cat(ErrorLines(parts, repr), Ok("\n")))
  }

  /** The report after the header otherwise: the raw section, `NO DATA`, or
      the success report with its footer. */
  function ContentBody(content: Json, parse: Parser, repr: Json -> string): PyResult<string> {
    match Elements(content)
    case Raise(e) => Raise(e)
    case Ok(parts) =>
      match ScanParts(None, parts, parse)
      case Raise(e) => Raise(e)
      case Ok(RawText(text)) => Ok("RESPONSE (Raw):\n" + text + "\n\n")
      case Ok(Scanning(parsed)) =>
        if parsed.None? || !Truthy(parsed.value) then Ok(NoDataSection())
        else SuccessReport(parsed.value, repr)
  }

  function SuccessReport(p: Json, repr: Json -> string): PyResult<string> {
    Cat(Ok("STATUS: SUCCESS\n" + Rule('-') + "\n"), Cat(SuccessBody(p, repr), Ok(Footer())))
  }

  /** `format_structured_response(data)` */
  function Report(data: seq<(string, Json)>, parse: Parser, repr: Json -> string): (r: PyResult<string>)
    ensures r.Ok? ==> StartsWith(r.value, Header())
  {
    var content := Lookup(data, "content").GetOr(JArr([]));
    var body := if Truthy(Lookup(data, "isError").GetOr(JBool(false))) then ErrorBody(content, repr)
                else ContentBody(content, parse, repr);
    if body.Raise? then Raise(body.exc)
    else
      assert (Header() + body.value)[..|Header()|] == Header();
      Ok(Header() + body.value)
  }

  /** With `isError` set, the report depends on the content alone. */
  lemma ErrorReportIgnoresOtherKeys(d1: seq<(string, Json)>, d2: seq<(string, Json)>, parse: Parser,
                                    repr: Json -> string)
    requires Truthy(Lookup(d1, "isError").GetOr(JBool(false)))
    requires Lookup(d1, "isError") == Lookup(d2, "isError") && Lookup(d1, "content") == Lookup(d2, "content")
    ensures Report(d1, parse, repr) == Report(d2, parse, repr)
  {
  }

  /** With `isError` set and dict parts, the report is the header, the error
      status and one message line per text part. */
  lemma ErrorReportLayout(data: seq<(string, Json)>, parse: Parser, repr: Json -> string, parts: seq<Json>)
    requires Truthy(Lookup(data, "isError").GetOr(JBool(false)))
    requires Lookup(data, "content") == Some(JArr(parts))
    requires forall k :: 0 <= k < |parts| ==> parts[k].JObj?
    ensures Report(data, parse, repr) ==
            Ok(Header() + ("STATUS: ERROR\n" + Rule('-') + (MessageLines(Messages(parts), repr) + "\n")))
  {
    ErrorLinesListMessages(parts, repr);
    assert ErrorBody(JArr(parts), repr) == Ok("STATUS: ERROR\n" + Rule('-') + (MessageLines(Messages(parts), repr) + "\n"));
  }

  /** A text part that is not JSON ends the report with its raw text. */
  lemma RawTextReport(data: seq<(string, Json)>, parse: Parser, repr: Json -> string, parts: seq<Json>,
                      i: nat, text: string)
    requires !Truthy(Lookup(data, "isError").GetOr(JBool(false)))
    requires Lookup(data, "content") == Some(JArr(parts))
    requires i < |parts| && forall j :: 0 <= j < i ==> Passes(parts[j], parse)
    requires parts[i].JObj? && Lookup(parts[i].fields, "type") == Some(JStr("text"))
    requires Lookup(parts[i].fields, "text") == Some(JStr(text)) && parse(text).None?
    ensures Report(data, parse, repr) == Ok(Header() + ("RESPONSE (Raw):\n" + text + "\n\n"))
  {
    RawTextEndsScan(None, parts, parse, i);
    assert ShownText(parts[i]) == text;
    assert ContentBody(JArr(parts), parse, repr) == Ok("RESPONSE (Raw):\n" + text + "\n\n");
  }

  /** Without a text part, or when the last one parses to an empty or
      otherwise falsy value, the report says `NO DATA`. */
  lemma NoDataReport(data: seq<(string, Json)>, parse: Parser, repr: Json -> string, parts: seq<Json>)
    requires !Truthy(Lookup(data, "isError").GetOr(JBool(false)))
    requires Lookup(data, "content") == Some(JArr(parts))
    requires forall j :: 0 <= j < |parts| ==> Passes(parts[j], parse)
    requires forall j :: 0 <= j < |parts| && Passes(parts[j], parse) && Lookup(parts[j].fields, "type") == Some(JStr("text")) ==>
               !Truthy(parse(PartText(parts[j]).s).value)
    ensures Report(data, parse, repr) == Ok(Header() + NoDataSection())
  {
    if exists i :: 0 <= i < |parts| && Lookup(parts[i].fields, "type") == Some(JStr("text")) {
      var i := LastText(parts);
      LastParseWins(None, parts, parse, i);
    } else {
      NoTextKeepsParsed(None, parts, parse);
    }
    assert ContentBody(JArr(parts), parse, repr) == Ok(NoDataSection());
  }

  /** The index of the last text part. */
  lemma LastText(parts: seq<Json>) returns (i: nat)
    requires forall j :: 0 <= j < |parts| ==> parts[j].JObj?
    requires exists i :: 0 <= i < |parts| && Lookup(parts[i].fields, "type") == Some(JStr("text"))
    ensures i < |parts| && Lookup(parts[i].fields, "type") == Some(JStr("text"))
    ensures forall j :: i < j < |parts| ==> Lookup(parts[j].fields, "type") != Some(JStr("text"))
  {
    i := |parts| - 1;
    while Lookup(parts[i].fields, "type") != Some(JStr("text"))
      invariant 0 <= i < |parts|
      invariant exists m :: 0 <= m <= i && Lookup(parts[m].fields, "type") == Some(JStr("text"))
      invariant forall j :: i < j < |parts| ==> Lookup(parts[j].fields, "type") != Some(JStr("text"))
      decreases i
    {
      i := i - 1;
    }
  }

  /** With `items` missing, empty or otherwise falsy, the success report
      says that no instance matched, between the summary and the footer. */
  lemma NoInstancesReport(p: Json, repr: Json -> string, summary: string)
    requires p.JObj? && Summary(p, repr) == Ok(summary)
    requires !Truthy(Lookup(p.fields, "items").GetOr(JArr([])))
    ensures SuccessReport(p, repr) ==
            Ok("STATUS: SUCCESS\n" + Rule('-') + "\n" + ((summary + NoInstancesSection()) + Footer()))
  {
    SuccessReportOfParts(p, repr, summary, Lookup(p.fields, "items").GetOr(JArr([])), NoInstancesSection());
  }

  /** A success report ends with the `END OF REPORT` footer. */
  lemma SuccessEndsWithFooter(p: Json, repr: Json -> string)
    requires SuccessReport(p, repr).Ok?
    ensures var r := SuccessReport(p, repr).value;
            |Footer()| <= |r| && r[|r| - |Footer()|..] == Footer()
  {
    CatEndsWith(Ok("STATUS: SUCCESS\n" + Rule('-') + "\n"), SuccessBody(p, repr), Footer());
  }

  /** A successful `Cat` ending in a fixed piece ends with that piece. */
  lemma CatEndsWith(a: PyResult<string>, b: PyResult<string>, tail: string)
    requires Cat(a, Cat(b, Ok(tail))).Ok?
    ensures var r := Cat(a, Cat(b, Ok(tail))).value;
            |tail| <= |r| && r[|r| - |tail|..] == tail
  {
    var r := a.value + (b.value + tail);
    assert r[|r| - |tail|..] == tail;
  }

  // ---- The method

  /** `format_structured_response`, built with the source's loops. */
  method FormatStructuredResponse(data: seq<(string, Json)>, parse: Parser, repr: Json -> string)
    returns (r: PyResult<string>)
    ensures r == Report(data, parse, repr)
  {
    var output := Header();
    var content := Lookup(data, "content").GetOr(JArr([]));
    var body: PyResult<string>;
    if Truthy(Lookup(data, "isError").GetOr(JBool(false))) {
      body := ErrorSection(content, repr);
    } else {
      body := ContentSection(content, parse, repr);
    }
    if body.Raise? {
      return Raise(body.exc);
    }
    output := output + body.value;
    r := Ok(output);
  }

  /** The output under `STATUS: ERROR`. */
  method ErrorSection(content: Json, repr: Json -> string) returns (r: PyResult<string>)
    ensures r == ErrorBody(content, repr)
  {
    var parts := Elements(content);
    if parts.Raise? {
      return Raise(parts.exc);
    }
    var output := "STATUS: ERROR\n" + Rule('-');
    var lines := ErrorMessagesLoop(parts.value, repr);
    if lines.Raise? {
      return Raise(lines.exc);
    }
    output := output + lines.value + "\n";
    assert output == "STATUS: ERROR\n" + Rule('-') + (lines.value + "\n");
    r := Ok(output);
  }

  /** The output after the content scan: the raw section, `NO DATA`, or the
      success report. */
  method ContentSection(content: Json, parse: Parser, repr: Json -> string) returns (r: PyResult<string>)
    ensures r == ContentBody(content, parse, repr)
  {
    var parts := Elements(content);
    if parts.Raise? {
      return Raise(parts.exc);
    }
    var scan := ContentScanLoop(parts.value, parse);
    if scan.Raise? {
      return Raise(scan.exc);
    }
    if scan.value.RawText? {
      return Ok("RESPONSE (Raw):\n" + scan.value.text + "\n\n");
    }
    var parsed := scan.value.parsed;
    if parsed.None? || !Truthy(parsed.value) {
      return Ok(NoDataSection());
    }
    r := SuccessSection(parsed.value, repr);
  }

  /** The success report, from `STATUS: SUCCESS` to the footer. */
  method SuccessSection(p: Json, repr: Json -> string) returns (r: PyResult<string>)
    ensures r == SuccessReport(p, repr)
  {
    var summary := Summary(p, repr);
    if summary.Raise? {
      return Raise(summary.exc);
    }
    var items := Get(p, "items", JArr([]));
    if items.Raise? {
      return Raise(items.exc);
    }
    var section := InstancesLoop(items.value, repr);
    if section.Raise? {
      return Raise(section.exc);
    }
    SuccessReportOfParts(p, repr, summary.value, items.value, section.value);
    var output := "STATUS: SUCCESS\n" + Rule('-') + "\n" + ((summary.value + section.value) + Footer());
    r := Ok(output);
  }

  /** The success report assembled from its rendered summary and instances
      section. */
  lemma SuccessReportOfParts(p: Json, repr: Json -> string, summary: string, items: Json, section: string)
    requires Summary(p, repr) == Ok(summary)
    requires Get(p, "items", JArr([])) == Ok(items)
    requires InstancesSection(items, repr) == Ok(section)
    ensures SuccessReport(p, repr) ==
            Ok("STATUS: SUCCESS\n" + Rule('-') + "\n" + ((summary + section) + Footer()))
  {
    assert SuccessBody(p, repr) == Ok(summary + section);
  }

  /** The loop over the content parts under `STATUS: ERROR`. */
  method ErrorMessagesLoop(parts: seq<Json>, repr: Json -> string) returns (r: PyResult<string>)
    ensures r == ErrorLines(parts, repr)
  {
    var lines := "";
    var i := 0;
    assert parts[0..] == parts;
    CatEmpty(ErrorLines(parts, repr));
    while i < |parts|
      invariant 0 <= i <= |parts|
      invariant ErrorLines(parts, repr) == Cat(Ok(lines), ErrorLines(parts[i..], repr))
    {
      assert parts[i..][0] == parts[i] && parts[i..][1..] == parts[i + 1..];
      var line := ErrorLine(parts[i], repr);
      if line.Raise? {
        return Raise(line.exc);
      }
      CatAssoc(Ok(lines), line, ErrorLines(parts[i + 1..], repr));
      lines := lines + line.value;
      i := i + 1;
    }
    assert parts[i..] == [] && lines + "" == lines;
    r := Ok(lines);
  }

  /** `""` is the unit of `Cat`. */
  lemma CatEmpty(a: PyResult<string>)
    ensures Cat(Ok(""), a) == a
  {
    if a.Ok? {
      assert "" + a.value == a.value;
    }
  }

  /** The loop over the content parts that parses their texts; it returns
      at the first text that is not JSON. */
  method ContentScanLoop(parts: seq<Json>, parse: Parser) returns (r: PyResult<Scan>)
    ensures r == ScanParts(None, parts, parse)
  {
    var parsed: Option<Json> := None;
    var i := 0;
    while i < |parts|
      invariant 0 <= i <= |parts|
      invariant ScanParts(None, parts, parse) == ScanParts(parsed, parts[i..], parse)
    {
      assert parts[i..][0] == parts[i] && parts[i..][1..] == parts[i + 1..];
      var isText := IsTextPart(parts[i]);
      if isText.Raise? {
        return Raise(isText.exc);
      }
      if isText.value {
        var loaded := Loads(PartText(parts[i]), parse);
        if loaded.Raise? {
          return Raise(loaded.exc);
        }
        if loaded.value.None? {
          return Ok(RawText(ShownText(parts[i])));
        }
        parsed := loaded.value;
      }
      i := i + 1;
    }
    r := Ok(Scanning(parsed));
  }

  /** The instances section with its `for index, instance in enumerate(items, 1)` loop. */
  method InstancesLoop(items: Json, repr: Json -> string) returns (r: PyResult<string>)
    ensures r == InstancesSection(items, repr)
  {
    if !Truthy(items) {
      return Ok(NoInstancesSection());
    }
    if items.JNum? || items.JBool? {
      return Raise(TypeError);
    }
    var elems := Elements(items).value;
    var blocks := "";
    var i := 0;
    assert elems[0..] == elems;
    CatEmpty(InstanceBlocks(elems, 1, repr));
    while i < |elems|
      invariant 0 <= i <= |elems|
      invariant InstanceBlocks(elems, 1, repr) == Cat(Ok(blocks), InstanceBlocks(elems[i..], i + 1, repr))
    {
      assert elems[i..][0] == elems[i] && elems[i..][1..] == elems[i + 1..];
      var block := InstanceBlock(i + 1, elems[i], repr);
      if block.Raise? {
        return Raise(block.exc);
      }
      CatAssoc(Ok(blocks), block, InstanceBlocks(elems[i + 1..], i + 2, repr));
      blocks := blocks + block.value;
      i := i + 1;
    }
    assert elems[i..] == [] && blocks + "" == blocks;
    r := Ok("INTEGRATION INSTANCES:\n" + Rule('-') + blocks + "\n");
    CatAssoc(Ok("INTEGRATION INSTANCES:\n" + Rule('-')), Ok(blocks), Ok("\n"));
  }
}
