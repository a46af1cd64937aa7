/** The hired-candidates page: which applications it lists, how its
    selection toggles, which applications an export covers, and the CSV
    text an export produces. Applications are plain records. */
module HiredCandidates {
  import opened JsValues
  import opened Collections
  import opened Records

  /** `app.status === 'hired'` */
  predicate Hired(app: Object) {
    Get(app, "status") == Str("hired")
  }

  /** `applications.filter(app => app.status === 'hired')`. */
  function HiredApps(apps: seq<Object>): (r: seq<Object>)
    ensures forall a :: a in r <==> a in apps && Hired(a)
    ensures forall a :: multiset(r)[a] == if Hired(a) then multiset(apps)[a] else 0
  {
    Filter(apps, Hired)
  }

  /** The hired list keeps the applications' order: the hired applications
      of a concatenation are those of each part, in turn. */
  lemma HiredKeepsOrder(a: seq<Object>, b: seq<Object>)
    ensures HiredApps(a + b) == HiredApps(a) + HiredApps(b)
  {
    FilterAppend(a, b, Hired);
  }

  /** `toggleAppSelection`: a selected id is dropped (every occurrence of
      it), an unselected one is appended. */
  function Toggle(selection: seq<Value>, id: Value): (r: seq<Value>)
    ensures id in selection ==> forall x :: x in r <==> x in selection && x != id
    ensures id in selection ==> r == Filter(selection, (x: Value) => x != id)
    ensures id !in selection ==> r == selection + [id]
  {
    if id in selection then Filter(selection, (x: Value) => x != id) else selection + [id]
  }

  /** Toggling flips membership of the id and of nothing else, and toggling
      an unselected id twice restores the selection exactly. */
  lemma ToggleTwiceRestores(selection: seq<Value>, id: Value)
    ensures id in Toggle(selection, id) <==> id !in selection
    ensures forall x :: x != id ==> (x in Toggle(selection, id) <==> x in selection)
    ensures id !in selection ==> Toggle(Toggle(selection, id), id) == selection
  {
    if id !in selection {
      var p := (x: Value) => x != id;
      FilterAppend(selection, [id], p);
      FilterAllPass(selection, p);
      assert |Filter([id], p)| == 0 by {
        assert forall x :: x !in Filter([id], p);
      }
    }
  }

  /** The applications an export covers: with a selection, every
      application (of any status) whose id is selected, in application
      order; without one, the hired list. */
  function ExportSet(apps: seq<Object>, selection: seq<Value>): (r: seq<Object>)
    ensures |selection| > 0 ==> forall a :: a in r <==> a in apps && Id(a) in selection
    ensures |selection| > 0 ==> forall a :: multiset(r)[a] == if Id(a) in selection then multiset(apps)[a] else 0
    ensures |selection| == 0 ==> r == HiredApps(apps)
  {
    if |selection| > 0 then Filter(apps, (a: Object) => Id(a) in selection) else HiredApps(apps)
  }

  /** The export keeps the applications' order, with or without a
      selection: the export of a concatenation is that of each part, in
      turn. */
  lemma ExportKeepsOrder(a: seq<Object>, b: seq<Object>, selection: seq<Value>)
    ensures ExportSet(a + b, selection) == ExportSet(a, selection) + ExportSet(b, selection)
  {
    if |selection| > 0 {
      FilterAppend(a, b, (o: Object) => Id(o) in selection);
    } else {
      HiredKeepsOrder(a, b);
    }
  }

  /** The export button is disabled exactly when no application is hired. */
  function ExportDisabled(apps: seq<Object>): (disabled: bool)
    ensures disabled <==> forall i :: 0 <= i < |apps| ==> !Hired(apps[i])
  {
    var hired := HiredApps(apps);
    if |hired| == 0 then
      assert forall i :: 0 <= i < |apps| ==> apps[i] !in hired;
      true
    else
      assert hired[0] in hired;
      false
  }

  /** The column titles. */
  const Columns := ["Name", "Email", "Phone", "Position", "Stack", "Hired Date", "Rating"]

  /** The header line: the column titles joined with ','. */
  const Header := Join(Columns, ",")

  /** `"${text}"`: a field wrapped in double quotes, inner quotes left as
      they are. */
  function Quote(text: string): string {
    "\"" + text + "\""
  }

  /** The seven fields of an application's line, before quoting; the date
      column is the locale rendering of `updatedAt`, a parameter here. */
  function Fields(app: Object, localDate: Value -> string): (f: seq<string>)
    ensures |f| == 7
    ensures f[0] == ToJsString(Get(app, "userName")) && f[1] == ToJsString(Get(app, "userEmail"))
    ensures f[2] == OrText(Get(app, "userPhone"), "") && f[6] == OrText(Get(app, "rating"), "")
    ensures f[3] == ToJsString(Get(app, "jobTitle")) && f[4] == ToJsString(Get(app, "stackName"))
    ensures f[5] == localDate(Get(app, "updatedAt"))
  {
    [ToJsString(Get(app, "userName")), ToJsString(Get(app, "userEmail")),
     OrText(Get(app, "userPhone"), ""), ToJsString(Get(app, "jobTitle")),
     ToJsString(Get(app, "stackName")), localDate(Get(app, "updatedAt")),
     OrText(Get(app, "rating"), "")]
  }

  function QuoteAll(fields: seq<string>): (r: seq<string>)
    ensures |r| == |fields|
    ensures forall i :: 0 <= i < |fields| ==> r[i] == Quote(fields[i])
    decreases |fields|
  {
    if fields == [] then [] else [Quote(fields[0])] + QuoteAll(fields[1..])
  }

  /** One data line: the seven quoted fields joined with ','. */
  function Line(app: Object, localDate: Value -> string): string {
    Join(QuoteAll(Fields(app, localDate)), ",")
  }

  function Lines(apps: seq<Object>, localDate: Value -> string): (r: seq<string>)
    ensures |r| == |apps|
    ensures forall i :: 0 <= i < |apps| ==> r[i] == Line(apps[i], localDate)
    decreases |apps|
  {
    if apps == [] then [] else [Line(apps[0], localDate)] + Lines(apps[1..], localDate)
  }

  /** The exported CSV text: the header line, then one line per exported
      application, joined with '\n'. */
  function Csv(apps: seq<Object>, selection: seq<Value>, localDate: Value -> string): string {
    Join([Header] + Lines(ExportSet(apps, selection), localDate), "\n")
  }

  /** None of an application's fields holds a line break. */
  predicate NoBreaks(app: Object, localDate: Value -> string) {
    forall k :: 0 <= k < 7 ==> '\n' !in Fields(app, localDate)[k]
  }

  /** A text that contains neither a line break, a comma nor a quote. */
  predicate Plain(text: string) {
    '\n' !in text && ',' !in text && '"' !in text
  }

  /** The header splits on ',' back into the seven column titles. */
  lemma HeaderIsColumns()
    ensures Split(Header, ',') == Columns
    ensures |Split(Header, ',')| == 7
  {
    SplitJoin(Columns, ',');
  }

  /** When no field holds a line break, the CSV splits on '\n' into the
      header and exactly one line per exported application, in order. */
  lemma CsvLines(apps: seq<Object>, selection: seq<Value>, localDate: Value -> string)
    requires forall a :: a in ExportSet(apps, selection) ==> NoBreaks(a, localDate)
    ensures var exported := ExportSet(apps, selection);
            var lines := Split(Csv(apps, selection, localDate), '\n');
            && |lines| == |exported| + 1
            && lines[0] == Header
            && forall i :: 0 <= i < |exported| ==> lines[i + 1] == Line(exported[i], localDate)
  {
    var exported := ExportSet(apps, selection);
    var parts := [Header] + Lines(exported, localDate);
    PartsNoBreak(exported, localDate);
    SplitJoin(parts, '\n');
  }

  /** The header and the data lines are single lines. */
  lemma PartsNoBreak(exported: seq<Object>, localDate: Value -> string)
    requires forall a :: a in exported ==> NoBreaks(a, localDate)
    ensures forall i :: 0 <= i < |exported| + 1 ==> '\n' !in ([Header] + Lines(exported, localDate))[i]
  {
    HeaderNoBreak();
    LinesNoBreak(exported, localDate);
    SingleLines(Header, Lines(exported, localDate));
  }

  /** No data line holds a line break when no field does. */
  lemma LinesNoBreak(exported: seq<Object>, localDate: Value -> string)
    requires forall a :: a in exported ==> NoBreaks(a, localDate)
    ensures forall i :: 0 <= i < |exported| ==> '\n' !in Lines(exported, localDate)[i]
  {
    forall i | 0 <= i < |exported| ensures '\n' !in Lines(exported, localDate)[i] {
      assert exported[i] in exported;
      NoBreakInLine(Fields(exported[i], localDate));
    }
  }

  /** A first line and further lines, none with a break. */
  lemma SingleLines(first: string, rest: seq<string>)
    requires '\n' !in first
    requires forall i :: 0 <= i < |rest| ==> '\n' !in rest[i]
    ensures forall i :: 0 <= i < |rest| + 1 ==> '\n' !in ([first] + rest)[i]
  {
  }

  /** The header line is a single line. */
  lemma HeaderNoBreak()
    ensures '\n' !in Header
  {
    JoinAvoids(Columns, ",", '\n');
  }

  /** A line of quoted fields has a line break only where a field has one. */
  lemma NoBreakInLine(fields: seq<string>)
    requires forall k :: 0 <= k < |fields| ==> '\n' !in fields[k]
    ensures '\n' !in Join(QuoteAll(fields), ",")
  {
    JoinAvoids(QuoteAll(fields), ",", '\n');
  }

  /** A join contains a character only if a part or the separator does. */
  lemma {:induction false} JoinAvoids(parts: seq<string>, sep: string, c: char)
    requires c !in sep
    requires forall k :: 0 <= k < |parts| ==> c !in parts[k]
    ensures c !in Join(parts, sep)
    decreases |parts|
  {
    if |parts| > 1 {
      JoinAvoids(parts[1..], sep, c);
    }
  }

  /** When every field is plain, a line splits on ',' into exactly the
      seven quoted fields; a missing phone or rating is the empty field
      `""`. */
  lemma LineFields(app: Object, localDate: Value -> string)
    requires forall k :: 0 <= k < 7 ==> Plain(Fields(app, localDate)[k])
    ensures var f := Fields(app, localDate);
            var cells := Split(Line(app, localDate), ',');
            && |cells| == 7
            && (forall k :: 0 <= k < 7 ==> cells[k] == Quote(f[k]))
            && (!Truthy(Get(app, "userPhone")) ==> cells[2] == "\"\"")
            && (!Truthy(Get(app, "rating")) ==> cells[6] == "\"\"")
  {
    var f := Fields(app, localDate);
    var q := QuoteAll(f);
    forall k | 0 <= k < |q| ensures ',' !in q[k] {
      assert q[k] == "\"" + f[k] + "\"";
    }
    SplitJoin(q, ',');
  }
}
