/**
 * The two text fields of the owner's add/edit turf form that hold lists:
 * amenities as comma-separated text, and operating time slots as
 * `day start-end` entries separated by semicolons. Each field shows the
 * serialised list and re-parses the text on every change.
 */
module TurfFormText {
  import opened Options
  import opened JsText

  /**
   * One operating window as the form stores it. `end` is absent when the
   * times part of an entry has no '-' (JavaScript's `undefined`).
   */
  datatype TimeSlot = TimeSlot(day: string, start: string, end: Option<string>)

  /** The window given to an entry that names only a day. */
  const DefaultStart: string := "06:00"
  const DefaultEnd: string := "22:00"

  /** `parts.map(s => s.trim())`. */
  function TrimAll(parts: seq<string>): (r: seq<string>)
    ensures |r| == |parts|
    ensures forall i :: 0 <= i < |r| ==> IsTrimmed(r[i])
  {
    seq(|parts|, i requires 0 <= i < |parts| => Trim(parts[i]))
  }

  /** `parts.filter(Boolean)`: the non-empty pieces, in order. */
  function DropEmpty(parts: seq<string>): (r: seq<string>)
    ensures |r| <= |parts|
    ensures forall i :: 0 <= i < |r| ==> r[i] != ""
    ensures forall x :: x in r <==> x in parts && x != ""
    ensures forall i :: 0 <= i < |r| ==> r[i] in parts
    ensures forall x :: multiset(r)[x] == if x == "" then 0 else multiset(parts)[x]
  {
    if |parts| == 0 then []
    else
      assert parts == [parts[0]] + parts[1..];
      if parts[0] == "" then DropEmpty(parts[1..])
      else [parts[0]] + DropEmpty(parts[1..])
  }

  /** The filter keeps order: filtering a concatenation filters each part. */
  lemma {:induction false} DropEmptyAppend(a: seq<string>, b: seq<string>)
    ensures DropEmpty(a + b) == DropEmpty(a) + DropEmpty(b)
  {
    if |a| > 0 {
      assert (a + b)[0] == a[0];
      assert (a + b)[1..] == a[1..] + b;
      DropEmptyAppend(a[1..], b);
    } else {
      assert a + b == b;
    }
  }

  lemma {:induction false} DropEmptyKeepsNonEmpty(parts: seq<string>)
    requires forall i :: 0 <= i < |parts| ==> parts[i] != ""
    ensures DropEmpty(parts) == parts
  {
    if |parts| > 0 {
      DropEmptyKeepsNonEmpty(parts[1..]);
    }
  }

  // ----- Amenities (page.tsx line 617) -----

  /** A piece that survives the amenities parser unchanged. */
  predicate IsAmenity(a: string) {
    a != "" && IsTrimmed(a) && ',' !in a
  }

  /** `text.split(',').map(s => s.trim()).filter(Boolean)`. */
  function ParseAmenities(text: string): (r: seq<string>)
    ensures forall i :: 0 <= i < |r| ==> IsAmenity(r[i])
  {
    var trimmed := TrimAll(Split(text, ','));
    assert forall i :: 0 <= i < |trimmed| ==> ',' !in trimmed[i];
    DropEmpty(trimmed)
  }

  /** `amenities.join(', ')`. */
  function ShowAmenities(amenities: seq<string>): string {
    Join(amenities, ", ")
  }

  /** Trimming the pieces of a `", "`-joined list recovers the list. */
  lemma TrimAllPadded(xs: seq<string>)
    requires |xs| >= 1
    requires forall i :: 0 <= i < |xs| ==> IsTrimmed(xs[i])
    ensures TrimAll([xs[0]] + Prefixed(" ", xs[1..])) == xs
  {
    var ps := [xs[0]] + Prefixed(" ", xs[1..]);
    forall i | 0 <= i < |xs| ensures Trim(ps[i]) == xs[i] {
      TrimPadded(xs, i);
    }
    TrimAllEach(ps, xs);
  }

  lemma TrimAllEach(ps: seq<string>, xs: seq<string>)
    requires |ps| == |xs| && forall i :: 0 <= i < |xs| ==> Trim(ps[i]) == xs[i]
    ensures TrimAll(ps) == xs
  {
  }

  /** One piece of a `", "`-joined list, trimmed. */
  lemma TrimPadded(xs: seq<string>, i: nat)
    requires i < |xs| && IsTrimmed(xs[i])
    ensures Trim(([xs[0]] + Prefixed(" ", xs[1..]))[i]) == xs[i]
  {
    if i > 0 {
      assert ([xs[0]] + Prefixed(" ", xs[1..]))[i] == " " + xs[i];
      TrimAfterSpaces(" ", xs[i]);
    }
  }

  /**
   * Joining the pieces of `xs` with `[sep] + " "` and then splitting on `sep`
   * and trimming gives `xs` back, when no piece holds `sep` and each is trimmed.
   */
  lemma SplitTrimJoin(xs: seq<string>, sep: char)
    requires |xs| >= 1
    requires forall i :: 0 <= i < |xs| ==> IsTrimmed(xs[i]) && sep !in xs[i]
    requires sep != ' '
    ensures TrimAll(Split(Join(xs, [sep, ' ']), sep)) == xs
  {
    var ps := [xs[0]] + Prefixed(" ", xs[1..]);
    assert [sep, ' '] == [sep] + " ";
    JoinWithPad(xs, sep, " ");
    assert Join(xs, [sep, ' ']) == Join(ps, [sep]);
    PaddedWithout(xs, sep);
    SplitJoin(ps, sep);
    assert Split(Join(xs, [sep, ' ']), sep) == ps;
    TrimAllPadded(xs);
  }

  lemma PaddedWithout(xs: seq<string>, sep: char)
    requires |xs| >= 1
    requires forall i :: 0 <= i < |xs| ==> sep !in xs[i]
    requires sep != ' '
    ensures var ps := [xs[0]] + Prefixed(" ", xs[1..]);
      forall i :: 0 <= i < |ps| ==> sep !in ps[i]
  {
    var ps := [xs[0]] + Prefixed(" ", xs[1..]);
    forall i | 0 <= i < |ps| ensures sep !in ps[i] {
      if i > 0 {
        assert ps[i] == " " + xs[i];
      }
    }
  }

  /** Showing a list of amenities and parsing the text gives the list back. */
  lemma AmenitiesRoundTrip(amenities: seq<string>)
    requires forall i :: 0 <= i < |amenities| ==> IsAmenity(amenities[i])
    ensures ParseAmenities(ShowAmenities(amenities)) == amenities
  {
    if |amenities| > 0 {
      SplitTrimJoin(amenities, ',');
      DropEmptyKeepsNonEmpty(amenities);
    }
  }

  /** Re-parsing the form's own rendering of parsed amenities changes nothing. */
  lemma AmenitiesReparseStable(text: string)
    ensures ParseAmenities(ShowAmenities(ParseAmenities(text))) == ParseAmenities(text)
  {
    AmenitiesRoundTrip(ParseAmenities(text));
  }

  // ----- Time slots (page.tsx lines 623-630) -----

  /** The text of an absent end, as a template literal prints it. */
  function EndText(end: Option<string>): string {
    match end
    case Some(e) => e
    case None => "undefined"
  }

  /** `${ts.day} ${ts.start}-${ts.end}`. */
  function SlotText(ts: TimeSlot): string {
    ts.day + " " + ts.start + "-" + EndText(ts.end)
  }

  /** `timeSlots.map(...).join('; ')`. */
  function ShowTimeSlots(slots: seq<TimeSlot>): string {
    Join(seq(|slots|, i requires 0 <= i < |slots| => SlotText(slots[i])), "; ")
  }

  /**
   * One trimmed entry: `const [day, times] = s.split(' ')`, then
   * `times ? times.split('-') : ['06:00', '22:00']`. A missing times part
   * and an empty one (two spaces after the day) both take the default.
   */
  function ParseSlot(entry: string): (r: TimeSlot)
    ensures ' ' !in r.day && '-' !in r.start
    ensures r.end.Some? ==> '-' !in r.end.value
    ensures |entry| > 0 && entry[0] != ' ' ==> r.day != ""
    ensures |r.day| <= |entry| && entry[..|r.day|] == r.day
    ensures |r.day| == |entry| || entry[|r.day|] == ' '
  {
    var words := Split(entry, ' ');
    JoinSplit(entry, ' ');
    JoinFirst(words, " ");
    var times := if |words| > 1 then words[1] else "";
    if times == "" then TimeSlot(words[0], DefaultStart, Some(DefaultEnd))
    else
      var bounds := Split(times, '-');
      TimeSlot(words[0], bounds[0], if |bounds| > 1 then Some(bounds[1]) else None)
  }

  /** An entry that names only a day gets the default window, 06:00 to 22:00. */
  lemma DayOnlyEntry(entry: string)
    requires ' ' !in entry
    ensures ParseSlot(entry) == TimeSlot(entry, DefaultStart, Some(DefaultEnd))
  {
    SplitWithoutSeparator(entry, ' ');
  }

  /** The trimmed, non-empty `;`-separated entries of the text. */
  function Entries(text: string): (r: seq<string>)
    ensures forall i :: 0 <= i < |r| ==> r[i] != "" && IsTrimmed(r[i]) && ';' !in r[i]
  {
    var trimmed := TrimAll(Split(text, ';'));
    assert forall i :: 0 <= i < |trimmed| ==> ';' !in trimmed[i];
    DropEmpty(trimmed)
  }

  /** The parser of the time-slot field: one slot per entry. */
  function ParseTimeSlots(text: string): (r: seq<TimeSlot>)
    ensures |r| == |Entries(text)|
    ensures forall i :: 0 <= i < |r| ==> r[i] == ParseSlot(Entries(text)[i])
  {
    var entries := Entries(text);
    seq(|entries|, i requires 0 <= i < |entries| => ParseSlot(entries[i]))
  }

  /**
   * What the parser promises of every slot: the day is the entry's first
   * space-separated word, is never empty and holds no space; the start and
   * the end hold no '-'; an entry with no space gets the default window.
   */
  lemma ParsedSlots(text: string, i: nat)
    requires i < |ParseTimeSlots(text)|
    ensures var r, e := ParseTimeSlots(text)[i], Entries(text)[i];
      && |r.day| <= |e| && e[..|r.day|] == r.day && (|r.day| == |e| || e[|r.day|] == ' ')
      && r.day != "" && ' ' !in r.day && ';' !in r.day
      && '-' !in r.start && (r.end.Some? ==> '-' !in r.end.value)
      && (' ' !in e ==> r == TimeSlot(e, DefaultStart, Some(DefaultEnd)))
  {
    var e := Entries(text)[i];
    if ' ' !in e {
      DayOnlyEntry(e);
    }
    assert e != "" && !IsSpace(e[0]);
    var d := ParseSlot(e).day;
    assert forall k :: 0 <= k < |d| ==> d[k] == e[k];
  }

  /** The first piece of a join is a prefix of the joined string. */
  lemma JoinFirst(parts: seq<string>, sep: string)
    requires |parts| >= 1
    ensures Join(parts, sep)[..|parts[0]|] == parts[0]
    ensures |parts| == 1 ==> Join(parts, sep) == parts[0]
    ensures |parts| > 1 ==> Join(parts, sep)[|parts[0]|..][..|sep|] == sep
  {
    if |parts| > 1 {
      assert Join(parts, sep) == parts[0] + sep + Join(parts[1..], sep);
      assert Join(parts, sep)[|parts[0]|..] == sep + Join(parts[1..], sep);
    }
  }

  /** The fields of a slot that the round trip preserves. */
  predicate IsToken(s: string) {
    s != "" && forall i :: 0 <= i < |s| ==> !IsSpace(s[i]) && s[i] != ';'
  }

  /**
   * A slot the text field shows faithfully: every field is a non-empty word
   * with no white space and no ';', the end is present, and neither time
   * holds a '-' (the day may, as in 'Mon-Sun').
   */
  predicate IsShowable(ts: TimeSlot) {
    && IsToken(ts.day) && IsToken(ts.start) && '-' !in ts.start
    && ts.end.Some? && IsToken(ts.end.value) && '-' !in ts.end.value
  }

  lemma SlotRoundTrip(ts: TimeSlot)
    requires IsShowable(ts)
    ensures ParseSlot(SlotText(ts)) == ts
  {
    var end := ts.end.value;
    var times := ts.start + "-" + end;
    assert SlotText(ts) == ts.day + [' '] + times;
    assert ' ' !in ts.day && ' ' !in times by {
      assert IsSpace(' ');
    }
    SplitAround(ts.day, ' ', times);
    SplitWithoutSeparator(ts.day, ' ');
    SplitWithoutSeparator(times, ' ');
    assert times == ts.start + ['-'] + end;
    SplitAround(ts.start, '-', end);
    SplitWithoutSeparator(ts.start, '-');
    SplitWithoutSeparator(end, '-');
  }

  /** Showing a list of showable slots and parsing the text gives the list back. */
  lemma TimeSlotsRoundTrip(slots: seq<TimeSlot>)
    requires forall i :: 0 <= i < |slots| ==> IsShowable(slots[i])
    ensures ParseTimeSlots(ShowTimeSlots(slots)) == slots
  {
    var texts := seq(|slots|, i requires 0 <= i < |slots| => SlotText(slots[i]));
    if |slots| > 0 {
      forall i | 0 <= i < |texts| ensures IsTrimmed(texts[i]) && ';' !in texts[i] && texts[i] != "" {
        var ts := slots[i];
        assert texts[i] == ts.day + " " + ts.start + "-" + ts.end.value;
        assert texts[i][0] == ts.day[0];
        assert texts[i][|texts[i]| - 1] == ts.end.value[|ts.end.value| - 1];
      }
      SplitTrimJoin(texts, ';');
      DropEmptyKeepsNonEmpty(texts);
      assert Entries(ShowTimeSlots(slots)) == texts;
      forall i | 0 <= i < |slots| ensures ParseSlot(texts[i]) == slots[i] {
        SlotRoundTrip(slots[i]);
      }
    }
  }
}
