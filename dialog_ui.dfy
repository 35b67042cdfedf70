/**
 * Ohsome/gui/OhsomeDialogUI.py: `QGISHelper`, which keeps comma-separated
 * values in the project's `OhsomePlugin` entries, and `ProcessManager`,
 * which mirrors the dialog's dates, intervals and OSM type boxes in fields
 * that the dialog's signals update, and builds the `time` text, the OSM
 * type filter and the temporal interval from them.
 */
module DialogUi {
  import opened Strings
  import Dates
  import RequestParams

  // ---------------------------------------------------------------------
  // QGISHelper

  /** `.strip(',').strip()`: outer commas off, then outer whitespace. */
  function Trimmed(s: string): (r: string)
    ensures |r| > 0 ==> !IsSpace(r[0]) && !IsSpace(r[|r| - 1])
  {
    StripEnds(Strip(s, {','}), Whitespace);
    StripSpace(Strip(s, {','}))
  }

  /** An entry that neither begins nor ends with a comma or whitespace is kept as it is. */
  lemma TrimmedKeeps(s: string)
    requires |s| > 0 ==> s[0] != ',' && s[|s| - 1] != ',' && !IsSpace(s[0]) && !IsSpace(s[|s| - 1])
    ensures Trimmed(s) == s
  {
    StripExact([], s, [], Given({','}));
    assert [] + s + [] == s;
    StripExact([], s, [], Whitespace);
  }

  /** The entry `add_to_settings` writes when appending: the trimmed entry, a comma and a space, then the value. */
  function Appended(entry: string, value: string): string
  {
    Trimmed(entry) + ", " + value
  }

  /** The project entries of the `OhsomePlugin` scope, as `QGISHelper` reads and writes them. */
  class QgisHelper {
    var entries: map<string, string>

    constructor (entries: map<string, string>)
      ensures this.entries == entries
    {
      this.entries := entries;
    }

    /** `get_settings`: the project's `readEntry`, the text and whether the key exists. */
    function GetSettings(key: string): (r: (string, bool))
      reads this
      ensures r.1 <==> key in entries
      ensures r.0 == if key in entries then entries[key] else ""
    {
      if key in entries then (entries[key], true) else ("", false)
    }

    /**
     * `add_to_settings` (Ohsome/gui/OhsomeDialogUI.py:55-67): appending to
     * an existing entry adds the value after a comma unless the entry
     * already holds it; otherwise the entry becomes the value. Either way
     * the entry holds the value afterwards, and no other key changes.
     */
    method AddToSettings(key: string, value: string, append: bool)
      modifies this
      ensures append && key in old(entries) && Contains(old(entries)[key], value) ==> entries == old(entries)
      ensures append && key in old(entries) && !Contains(old(entries)[key], value) ==>
                entries == old(entries)[key := Appended(old(entries)[key], value)]
      ensures !(append && key in old(entries)) ==> entries == old(entries)[key := value]
      ensures key in entries && Contains(entries[key], value)
    {
      var originalEntry := GetSettings(key);
      if append && originalEntry.1 {
        if !Contains(originalEntry.0, value) {
          var written := Appended(originalEntry.0, value);
          EndsWithContains(written, value);
          entries := entries[key := written];
        }
      } else {
        EndsWithContains(value, value);
        entries := entries[key := value];
      }
    }

    /** `remove_key_from_settings` (Ohsome/gui/OhsomeDialogUI.py:69-71). */
    method RemoveKeyFromSettings(key: string)
      modifies this
      ensures entries == old(entries) - {key}
    {
      entries := entries - {key};
    }

    /**
     * `remove_value_from_settings` (Ohsome/gui/OhsomeDialogUI.py:73-83):
     * an existing entry that holds the value loses every occurrence of it
     * and is then trimmed; any other entry, and every other key, is kept.
     */
    method RemoveValueFromSettings(key: string, value: string)
      modifies this
      ensures key in old(entries) && Contains(old(entries)[key], value) ==>
                entries == old(entries)[key := Trimmed(Remove(old(entries)[key], value))]
      ensures !(key in old(entries) && Contains(old(entries)[key], value)) ==> entries == old(entries)
    {
      var originalEntry := GetSettings(key);
      if originalEntry.1 {
        if Contains(originalEntry.0, value) {
          entries := entries[key := Trimmed(Remove(originalEntry.0, value))];
        }
      }
    }
  }

  // ---------------------------------------------------------------------
  // ProcessManager: the `time` text

  /** A month or day in two digits: a leading zero below 10. */
  function TwoDigits(n: nat): string
  {
    if n > 9 then NatToString(n) else "0" + NatToString(n)
  }

  /** The date as `ProcessManager.time` writes it: year, month and day, each left out when it is 0. */
  function DatePart(d: Dates.Date): string
  {
    (if d.year != 0 then NatToString(d.year) + "-" else "")
    + (if d.month != 0 then TwoDigits(d.month) + "-" else "")
    + (if d.day != 0 then TwoDigits(d.day) else "")
  }

  /** The duration without its slash: `P`, then the positive counts in Y, M, D order. */
  function DialogIntervals(years: int, months: int, days: int): string
  {
    "P" + RequestParams.Designator(years, 'Y') + RequestParams.Designator(months, 'M')
    + RequestParams.Designator(days, 'D')
  }

  /**
   * The `time` text: `start/end`, or `/start` when both dates read the same,
   * and `/` and the duration when some count is positive; each date that
   * reads `2007-10-08` asks for its first second instead.
   */
  function TimeText(start: Dates.Date, end: Dates.Date, years: int, months: int, days: int): string
  {
    var dateStart := RequestParams.ApiDate(DatePart(start));
    var dateEnd := RequestParams.ApiDate(DatePart(end));
    var dates := if dateStart != dateEnd then dateStart + "/" + dateEnd else "/" + dateStart;
    var intervals := DialogIntervals(years, months, days);
    if |intervals| > 1 then dates + "/" + intervals else dates
  }

  predicate NoSpace(s: string)
  {
    forall k :: 0 <= k < |s| ==> s[k] != ' '
  }

  lemma NoSpaceConcat(a: string, b: string)
    requires NoSpace(a) && NoSpace(b)
    ensures NoSpace(a + b)
  {
    assert forall k :: |a| <= k < |a + b| ==> (a + b)[k] == b[k - |a|];
  }

  /** The duration holds no space, so the space collapse of `time` leaves it as it is. */
  lemma DialogIntervalsCollapse(years: int, months: int, days: int)
    ensures CollapseSpaces(DialogIntervals(years, months, days)) == DialogIntervals(years, months, days)
  {
    var y := RequestParams.Designator(years, 'Y');
    var m := RequestParams.Designator(months, 'M');
    var d := RequestParams.Designator(days, 'D');
    assert NoSpace("P");
    NoSpaceConcat("P", y);
    NoSpaceConcat("P" + y, m);
    NoSpaceConcat("P" + y + m, d);
    CollapseSpacesKeeps(DialogIntervals(years, months, days));
  }

  /** The duration is appended exactly when some count is positive. */
  lemma DialogIntervalsPositive(years: int, months: int, days: int)
    ensures |DialogIntervals(years, months, days)| > 1 <==> years > 0 || months > 0 || days > 0
  {
  }

  /** With its slash, the duration is the shared builder's. */
  lemma DialogIntervalsShared(years: int, months: int, days: int)
    ensures "/" + DialogIntervals(years, months, days) == RequestParams.Intervals(years, months, days)
  {
    var rest := RequestParams.Designator(years, 'Y') + RequestParams.Designator(months, 'M')
                + RequestParams.Designator(days, 'D');
    assert DialogIntervals(years, months, days) == "P" + rest;
    assert RequestParams.Intervals(years, months, days) == "/P" + rest;
    assert "/" + "P" == "/P";
  }

  /** For a date of a four-digit year, the hand-made text is the ISO 8601 calendar date. */
  lemma DatePartIso(d: Dates.Date)
    requires Dates.ValidDate(d) && d.year >= 1000
    ensures DatePart(d) == Dates.Iso(d)
  {
    assert Dates.Pow10(3) == 1000;
    Dates.DigitsAtLeast(d.year, 3);
    assert Dates.Pad(d.year, 4) == NatToString(d.year);
    TwoDigitsPad(d.month);
    TwoDigitsPad(d.day);
  }

  lemma TwoDigitsPad(n: nat)
    requires 1 <= n <= 31
    ensures TwoDigits(n) == Dates.Pad(n, 2)
  {
    if n > 9 {
      assert |NatToString(n)| >= 2;
    } else {
      assert |NatToString(n)| == 1;
      assert seq(1, _ => '0') == "0";
    }
  }

  /** Dialog dates read the same in the parameter exactly when they are the same date. */
  lemma DateTextInjective(d: Dates.Date, e: Dates.Date)
    requires Dates.ValidDate(d) && Dates.ValidDate(e)
    ensures RequestParams.DateText(d) == RequestParams.DateText(e) <==> d == e
  {
    Dates.IsoLayout(d);
    Dates.IsoLayout(e);
    assert |RequestParams.FirstSecond| == 19;
    if d != Dates.HistoryStart && e != Dates.HistoryStart && Dates.Iso(d) == Dates.Iso(e) {
      Dates.IsoInjective(d, e);
    }
  }

  /**
   * For dates of four-digit years, `time` is the shared `start/end` text
   * with `/start` for a single day, followed by the shared duration when
   * some count is positive.
   */
  lemma TimeTextShared(start: Dates.Date, end: Dates.Date, years: int, months: int, days: int)
    requires Dates.ValidDate(start) && Dates.ValidDate(end) && start.year >= 1000 && end.year >= 1000
    ensures TimeText(start, end, years, months, days)
            == (if start != end then RequestParams.DateText(start) + "/" + RequestParams.DateText(end)
                else "/" + RequestParams.DateText(start))
               + (if years > 0 || months > 0 || days > 0 then RequestParams.Intervals(years, months, days) else "")
  {
    DatePartIso(start);
    DatePartIso(end);
    Dates.HistoryStartText(start);
    Dates.HistoryStartText(end);
    DateTextInjective(start, end);
    DialogIntervalsPositive(years, months, days);
    DialogIntervalsShared(years, months, days);
  }

  // ---------------------------------------------------------------------
  // ProcessManager: the OSM type filter

  /** A combinator or type name: non-empty and without spaces. */
  predicate Word(s: string)
  {
    |s| > 0 && NoSpace(s)
  }

  /** One type added to the filter text: alone when it comes first, else after the text and the combinator. */
  function AddType(text: string, isFirst: bool, combination: string, name: string): string
  {
    if isFirst then name else text + " " + combination + " " + name
  }

  /** The same step on the list of words. */
  function AddWords(words: seq<string>, isFirst: bool, combination: string, name: string): seq<string>
  {
    if isFirst then [name] else words + [combination, name]
  }

  /** The types ticked, node, way, relation, with the combinator before way and the second one before relation. */
  function OsmTypeWords(node: bool, way: bool, relation: bool, combination: string, combination2: string): seq<string>
  {
    var first := if node then ["type:node"] else [];
    var second := if way then AddWords(first, !node, combination, "type:way") else first;
    if relation then AddWords(second, !node && !way, combination2, "type:relation") else second
  }

  /** The filter text before the space collapse, as `_get_osm_types` assembles it. */
  function RawOsmTypes(node: bool, way: bool, relation: bool, combination: string, combination2: string): string
  {
    var first := if node then "type:node" else "";
    var second := if way then AddType(first, !node, combination, "type:way") else first;
    if relation then AddType(second, !node && !way, combination2, "type:relation") else second
  }

  /** No two spaces in a row. */
  predicate SingleSpaced(s: string)
  {
    forall k :: 0 <= k < |s| - 1 ==> !(s[k] == ' ' && s[k + 1] == ' ')
  }

  /** Words joined by single spaces never hold two spaces in a row. */
  lemma {:induction false} JoinWordsSingleSpaced(words: seq<string>)
    requires forall k :: 0 <= k < |words| ==> Word(words[k])
    ensures SingleSpaced(Join(" ", words))
    ensures |words| > 0 ==> |Join(" ", words)| > 0 && Join(" ", words)[0] != ' '
  {
    if |words| > 1 {
      var rest := Join(" ", words[1..]);
      JoinWordsSingleSpaced(words[1..]);
      var w := words[0];
      var s := w + " " + rest;
      assert Join(" ", words) == s;
      forall k | 0 <= k < |s| - 1 ensures !(s[k] == ' ' && s[k + 1] == ' ') {
        if k < |w| {
          assert s[k] == w[k];
        } else if k == |w| {
          assert s[k + 1] == rest[0];
        } else {
          assert s[k] == rest[k - |w| - 1] && s[k + 1] == rest[k - |w|];
        }
      }
    }
  }

  /** Joining two more words extends a non-empty join by a space and each word. */
  lemma JoinTwoMore(words: seq<string>, a: string, b: string)
    requires |words| > 0
    ensures Join(" ", words + [a, b]) == Join(" ", words) + " " + a + " " + b
  {
    JoinAppend(" ", words, a);
    assert words + [a, b] == (words + [a]) + [b];
    JoinAppend(" ", words + [a], b);
  }

  /** Adding a type to the text of some words gives the text of the words with it. */
  lemma AddTypeJoin(text: string, words: seq<string>, isFirst: bool, combination: string, name: string)
    requires !isFirst ==> |words| > 0 && text == Join(" ", words)
    ensures AddType(text, isFirst, combination, name) == Join(" ", AddWords(words, isFirst, combination, name))
  {
    if !isFirst {
      JoinTwoMore(words, combination, name);
    }
  }

  /** The filter text is its words joined by single spaces. */
  lemma RawOsmTypesJoin(node: bool, way: bool, relation: bool, combination: string, combination2: string)
    ensures RawOsmTypes(node, way, relation, combination, combination2)
            == Join(" ", OsmTypeWords(node, way, relation, combination, combination2))
  {
    var first := if node then ["type:node"] else [];
    var firstText := if node then "type:node" else "";
    var second := if way then AddWords(first, !node, combination, "type:way") else first;
    var secondText := if way then AddType(firstText, !node, combination, "type:way") else firstText;
    if way {
      AddTypeJoin(firstText, first, !node, combination, "type:way");
    }
    assert secondText == Join(" ", second);
    if relation {
      AddTypeJoin(secondText, second, !node && !way, combination2, "type:relation");
    }
  }

  /** The type names are words. */
  lemma TypeNamesAreWords()
    ensures Word("type:node") && Word("type:way") && Word("type:relation")
  {
    var node, way, relation := "type:node", "type:way", "type:relation";
    assert forall k :: 0 <= k < |node| ==> node[k] != ' ';
    assert forall k :: 0 <= k < |way| ==> way[k] != ' ';
    assert forall k :: 0 <= k < |relation| ==> relation[k] != ' ';
  }

  /**
   * With combinators that are single words, the filter is the ticked types
   * and the combinators between them, joined by single spaces: the space
   * collapse changes nothing.
   */
  lemma OsmTypesJoined(node: bool, way: bool, relation: bool, combination: string, combination2: string)
    requires Word(combination) && Word(combination2)
    ensures CollapseSpaces(RawOsmTypes(node, way, relation, combination, combination2))
            == Join(" ", OsmTypeWords(node, way, relation, combination, combination2))
  {
    var words := OsmTypeWords(node, way, relation, combination, combination2);
    TypeNamesAreWords();
    assert forall k :: 0 <= k < |words| ==> Word(words[k]);
    JoinWordsSingleSpaced(words);
    RawOsmTypesJoin(node, way, relation, combination, combination2);
    CollapseSpacesKeeps(Join(" ", words));
  }

  /** The date part of `time` (Ohsome/gui/OhsomeDialogUI.py:164-191, written out once for each date there). */
  method FormatDate(d: Dates.Date) returns (text: string)
    ensures text == DatePart(d)
  {
    var year := if d.year != 0 then NatToString(d.year) + "-" else "";
    var month := if d.month != 0 then TwoDigits(d.month) + "-" else "";
    text := "";
    if d.year != 0 {
      text := text + (NatToString(d.year) + "-");
    }
    assert text == year;
    if d.month != 0 {
      if d.month > 9 {
        text := text + (NatToString(d.month) + "-");
      } else {
        text := text + ("0" + NatToString(d.month) + "-");
      }
    }
    assert text == year + month;
    if d.day != 0 {
      if d.day > 9 {
        text := text + NatToString(d.day);
      } else {
        text := text + ("0" + NatToString(d.day));
      }
    }
  }

  /** The duration of `time` (Ohsome/gui/OhsomeDialogUI.py:192-198). */
  method FormatIntervals(years: int, months: int, days: int) returns (intervals: string)
    ensures intervals == DialogIntervals(years, months, days)
  {
    intervals := "P";
    if years > 0 {
      intervals := intervals + (IntToString(years) + "Y");
    }
    assert intervals == "P" + RequestParams.Designator(years, 'Y');
    if months > 0 {
      intervals := intervals + (IntToString(months) + "M");
    }
    assert intervals == "P" + RequestParams.Designator(years, 'Y') + RequestParams.Designator(months, 'M');
    if days > 0 {
      intervals := intervals + (IntToString(days) + "D");
    }
  }

  // ---------------------------------------------------------------------
  // ProcessManager

  /** The QGIS temporal units the interval can take. */
  datatype TemporalUnit = TemporalDays | TemporalMonths | TemporalYears

  /** The dialog state the process manager mirrors. */
  class ProcessManager {
    var dateStart: Dates.Date
    var dateEnd: Dates.Date
    var intervalDays: int
    var intervalMonths: int
    var intervalYears: int
    var osmTypeNode: bool
    var osmTypeWay: bool
    var osmTypeRelation: bool

    /** The initial values read from the dialog. */
    constructor (dateStart: Dates.Date, dateEnd: Dates.Date, days: int, months: int, years: int,
                 node: bool, way: bool, relation: bool)
      ensures this.dateStart == dateStart && this.dateEnd == dateEnd
      ensures intervalDays == days && intervalMonths == months && intervalYears == years
      ensures osmTypeNode == node && osmTypeWay == way && osmTypeRelation == relation
    {
      this.dateStart := dateStart;
      this.dateEnd := dateEnd;
      intervalDays := days;
      intervalMonths := months;
      intervalYears := years;
      osmTypeNode := node;
      osmTypeWay := way;
      osmTypeRelation := relation;
    }

    method SetDateStart(d: Dates.Date)
      modifies this`dateStart
      ensures dateStart == d
    {
      dateStart := d;
    }

    method SetDateEnd(d: Dates.Date)
      modifies this`dateEnd
      ensures dateEnd == d
    {
      dateEnd := d;
    }

    method SetIntervalDays(n: int)
      modifies this`intervalDays
      ensures intervalDays == n
    {
      intervalDays := n;
    }

    method SetIntervalMonths(n: int)
      modifies this`intervalMonths
      ensures intervalMonths == n
    {
      intervalMonths := n;
    }

    method SetIntervalYears(n: int)
      modifies this`intervalYears
      ensures intervalYears == n
    {
      intervalYears := n;
    }

    method SetOsmTypeNode(checked: bool)
      modifies this`osmTypeNode
      ensures osmTypeNode == checked
    {
      osmTypeNode := checked;
    }

    method SetOsmTypeWay(checked: bool)
      modifies this`osmTypeWay
      ensures osmTypeWay == checked
    {
      osmTypeWay := checked;
    }

    method SetOsmTypeRelation(checked: bool)
      modifies this`osmTypeRelation
      ensures osmTypeRelation == checked
    {
      osmTypeRelation := checked;
    }

    /** `time` (Ohsome/gui/OhsomeDialogUI.py:159-210), built piece by piece from the fields. */
    method Time() returns (dates: string)
      ensures dates == TimeText(dateStart, dateEnd, intervalYears, intervalMonths, intervalDays)
    {
      var dateStart := FormatDate(this.dateStart);
      var dateEnd := FormatDate(this.dateEnd);
      var intervals := FormatIntervals(intervalYears, intervalMonths, intervalDays);
      DialogIntervalsCollapse(intervalYears, intervalMonths, intervalDays);
      intervals := CollapseSpaces(intervals);
      if dateStart == "2007-10-08" {
        dateStart := RequestParams.FirstSecond;
      }
      if dateEnd == "2007-10-08" {
        dateEnd := RequestParams.FirstSecond;
      }
      if dateStart != dateEnd {
        dates := dateStart + "/" + dateEnd;
      } else {
        dates := "/" + dateStart;
      }
      if |intervals| > 1 {
        dates := dates + "/" + intervals;
      }
    }

    /** `_get_osm_types` (Ohsome/gui/OhsomeDialogUI.py:246-264), with the two combinator texts of the dialog. */
    method OsmTypes(combination: string, combination2: string) returns (types: string)
      ensures types == CollapseSpaces(RawOsmTypes(osmTypeNode, osmTypeWay, osmTypeRelation, combination, combination2))
    {
      var typesString := "";
      if osmTypeNode {
        typesString := "type:node";
      }
      if osmTypeWay {
        if !osmTypeNode {
          typesString := "type:way";
        } else {
          typesString := typesString + " " + combination + " " + "type:way";
        }
      }
      if osmTypeRelation {
        if !osmTypeNode && !osmTypeWay {
          typesString := "type:relation";
        } else {
          typesString := typesString + " " + combination2 + " " + "type:relation";
        }
      }
      types := CollapseSpaces(typesString);
    }

    /**
     * `interval_unit` (Ohsome/gui/OhsomeDialogUI.py:275-284): days before
     * months before years, the first with a positive count; days when none is.
     */
    function IntervalUnit(): (r: TemporalUnit)
      reads this
      ensures r == TemporalMonths <==> intervalDays <= 0 && intervalMonths > 0
      ensures r == TemporalYears <==> intervalDays <= 0 && intervalMonths <= 0 && intervalYears > 0
    {
      if intervalDays > 0 then TemporalDays
      else if intervalMonths > 0 then TemporalMonths
      else if intervalYears > 0 then TemporalYears
      else TemporalDays
    }

    /**
     * `interval_value` (Ohsome/gui/OhsomeDialogUI.py:286-296): always
     * positive, and the count of the unit `interval_unit` picks, or 1 when
     * no count is positive.
     */
    function IntervalValue(): (r: int)
      reads this
      ensures r > 0
      ensures IntervalUnit() == TemporalMonths ==> r == intervalMonths
      ensures IntervalUnit() == TemporalYears ==> r == intervalYears
      ensures IntervalUnit() == TemporalDays ==> r == (if intervalDays > 0 then intervalDays else 1)
    {
      if intervalDays > 0 then intervalDays
      else if intervalMonths > 0 then intervalMonths
      else if intervalYears > 0 then intervalYears
      else 1
    }
  }
}
