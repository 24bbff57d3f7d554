/** What the extractor reads from the name of a saved page: the airline,
    the two dates and the session's timestamp, and which of the names the
    scrapers write it recognises. */
module FilenameParser {
  import opened Wrappers
  import opened Text
  import opened Calendar
  import opened Scraping
  import opened Patterns

  /** The fields read from a file name; all but the airline are the
      matched text itself. */
  datatype FileInfo = FileInfo(airlineFilter: string, departureDate: string, returnDate: string,
                               sessionDate: string, sessionTime: string, sequence: string)

  /** The record of a name that does not have the expected shape. */
  const Unrecognised := FileInfo("UNKNOWN", "", "", "", "", "")

  /** A character of `[A-Za-z_]`. */
  predicate IsNameChar(c: char) {
    IsLetterAscii(c) || c == '_'
  }

  predicate AllNameChars(s: string) {
    forall i :: 0 <= i < |s| ==> IsNameChar(s[i])
  }

  /** `[A-Za-z_]*` from `i`: the end of the run. */
  function SkipName(t: string, i: nat): (j: nat)
    requires i <= |t|
    ensures i <= j <= |t|
    ensures forall k :: i <= k < j ==> IsNameChar(t[k])
    ensures j < |t| ==> !IsNameChar(t[j])
    decreases |t| - i
  {
    if i < |t| && IsNameChar(t[i]) then SkipName(t, i + 1) else i
  }

  /** A run of name characters `[i, j)` that stops at `j` is what `SkipName` takes. */
  lemma {:induction false} SkipNameRun(t: string, i: nat, j: nat)
    requires i <= j <= |t|
    requires forall k :: i <= k < j ==> IsNameChar(t[k])
    requires j < |t| ==> !IsNameChar(t[j])
    ensures SkipName(t, i) == j
    decreases j - i
  {
    if i < j {
      SkipNameRun(t, i + 1, j);
    }
  }

  /** The fixed part after the airline group, starting at `r`:
      `(\d{4}-\d{2}-\d{2})_(\d{4}-\d{2}-\d{2})_(\d{8})_(\d{6})_`. */
  predicate FixedFields(t: string, r: nat) {
    r + 38 <= |t|
    && IsoShape(t[r..r + 10]) && t[r + 10] == '_'
    && IsoShape(t[r + 11..r + 21]) && t[r + 21] == '_'
    && AllDigits(t[r + 22..r + 30]) && t[r + 30] == '_'
    && AllDigits(t[r + 31..r + 37]) && t[r + 37] == '_'
  }

  /** `re.match(r'([A-Za-z_]+)_(\d{4}-\d{2}-\d{2})_(\d{4}-\d{2}-\d{2})_(\d{8})_(\d{6})_(\d+)\.txt', name)`.
      The airline group can only end just before the last character of the
      leading run of name characters, which must be `_`: the character after
      that `_` is a digit. The airline has its underscores turned into spaces. */
  function ParseFilename(name: string): (info: FileInfo)
    ensures info != Unrecognised ==>
              '_' !in info.airlineFilter && |info.airlineFilter| >= 1
              && IsoShape(info.departureDate) && IsoShape(info.returnDate)
              && |info.sessionDate| == 8 && AllDigits(info.sessionDate)
              && |info.sessionTime| == 6 && AllDigits(info.sessionTime)
              && |info.sequence| >= 1 && AllDigits(info.sequence)
  {
    var r := SkipName(name, 0);
    if r >= 2 && name[r - 1] == '_' && FixedFields(name, r) then
      var d := SkipDigits(name, r + 38);
      if d > r + 38 && OccursAt(name, ".txt", d) then
        var airline := ReplaceChar(name[..r - 1], '_', ' ');
        assert '_' !in airline by {
          forall i | 0 <= i < |airline| ensures airline[i] != '_' { }
        }
        FileInfo(airline, name[r..r + 10], name[r + 11..r + 21], name[r + 22..r + 30], name[r + 31..r + 37], name[r + 38..d])
      else Unrecognised
    else Unrecognised
  }

  /** A name with a round prefix (`R003_…`, `R-01_…`) is not recognised:
      the leading run of name characters is the `R` alone. */
  lemma RoundNameUnrecognised(n: int, rest: string)
    requires n != 0
    ensures ParseFilename(RoundPrefix(Some(n)) + rest) == Unrecognised
  {
    var t := RoundPrefix(Some(n)) + rest;
    var f := Format03(n);
    assert t == "R" + (f + "_" + rest);
    assert t[1] == f[0];
    assert !IsNameChar(f[0]) by {
      if n < 0 {
        assert f[0] == '-';
      } else {
        assert AllDigits(ZeroPad(n, 3));
      }
    }
    SkipNameRun(t, 0, 1);
  }

  /** A name in the older `{origin}-{destination}_…` form is not recognised
      when the origin is letters: the leading run stops at the hyphen, on a letter. */
  lemma HyphenNameUnrecognised(origin: string, destination: string, key: string,
                               departure: string, returnDate: string, timestamp: string)
    requires |origin| >= 1 && forall i :: 0 <= i < |origin| ==> IsLetterAscii(origin[i])
    ensures ParseFilename(HyphenBaseName(None, origin, destination, key, departure, returnDate, timestamp) + ".txt")
            == Unrecognised
  {
    var t := HyphenBaseName(None, origin, destination, key, departure, returnDate, timestamp) + ".txt";
    var rest := destination + "_" + key + "_" + departure + "_" + returnDate + "_" + timestamp + ".txt";
    assert RoundPrefix(None) == "";
    assert t == origin + ['-'] + rest;
    AroundChar(origin, '-', rest);
    forall i | 0 <= i < |origin| ensures IsNameChar(t[i]) {
      assert t[i] == t[..|origin|][i];
    }
    SkipNameRun(t, 0, |origin|);
  }

  /** A name whose leading run of name characters ends at `r` and whose
      sequence digits end at `d` is read field by field. */
  lemma ParseFilenameAt(t: string, r: nat, d: nat)
    requires 2 <= r && FixedFields(t, r) && r + 38 < d && d + 4 <= |t|
    requires forall k :: 0 <= k < r ==> IsNameChar(t[k])
    requires t[r - 1] == '_'
    requires forall k :: r + 38 <= k < d ==> IsDigit(t[k])
    requires t[d..d + 4] == ".txt"
    ensures ParseFilename(t) == FileInfo(ReplaceChar(t[..r - 1], '_', ' '), t[r..r + 10], t[r + 11..r + 21],
                                         t[r + 22..r + 30], t[r + 31..r + 37], t[r + 38..d])
  {
    assert t[r] == t[r..r + 10][0];
    SkipNameRun(t, 0, r);
    assert t[d] == t[d..d + 4][0];
    SkipDigitsRun(t, r + 38, d);
    assert OccursAt(t, ".txt", d);
  }

  /** A sequence split around one character. */
  lemma AroundChar(a: string, c: char, b: string)
    ensures (a + [c] + b)[..|a|] == a && (a + [c] + b)[|a|] == c && (a + [c] + b)[|a| + 1..] == b
  {
  }

  /** `{head}_{departure}_{return}_{timestamp}.txt`. */
  function CurrentName(head: string, departure: string, returnDate: string, timestamp: string): string {
    head + "_" + departure + "_" + returnDate + "_" + timestamp + ".txt"
  }

  /** Where the fields of such a name sit: after the head and its `_`, the
      two dates with their `_`, the timestamp and the extension. */
  lemma CurrentNameFields(head: string, departure: string, returnDate: string, timestamp: string)
    requires |departure| == 10 && |returnDate| == 10 && |timestamp| == 19
    ensures |CurrentName(head, departure, returnDate, timestamp)| == |head| + 46
    ensures CurrentName(head, departure, returnDate, timestamp)[..|head|] == head
    ensures CurrentName(head, departure, returnDate, timestamp)[|head|] == '_'
    ensures CurrentName(head, departure, returnDate, timestamp)[|head| + 1..] ==
            departure + "_" + returnDate + "_" + timestamp + ".txt"
  {
    var rest := departure + "_" + returnDate + "_" + timestamp + ".txt";
    assert CurrentName(head, departure, returnDate, timestamp) == head + ['_'] + rest;
    AroundChar(head, '_', rest);
  }

  /** The same, for the part after the head. */
  lemma DatesFields(departure: string, returnDate: string, timestamp: string)
    requires |departure| == 10 && |returnDate| == 10 && |timestamp| == 19
    ensures var rest := departure + "_" + returnDate + "_" + timestamp + ".txt";
            rest[..10] == departure && rest[10] == '_' && rest[11..21] == returnDate && rest[21] == '_'
            && rest[22..41] == timestamp && rest[41..] == ".txt"
  {
    var tail := returnDate + "_" + timestamp + ".txt";
    var rest := departure + "_" + returnDate + "_" + timestamp + ".txt";
    assert rest == departure + ['_'] + tail;
    AroundChar(departure, '_', tail);
    var last := timestamp + ".txt";
    assert tail == returnDate + ['_'] + last;
    AroundChar(returnDate, '_', last);
    assert rest[11..] == tail;
    assert rest[11..21] == tail[..10];
    assert rest[22..] == last;
    assert rest[22..41] == last[..19];
  }

  /** A head made of name characters joined by `_` is name characters. */
  lemma HeadNameChars(origin: string, destination: string, key: string)
    requires AllNameChars(origin) && AllNameChars(destination) && AllNameChars(key)
    ensures AllNameChars(origin + "_" + destination + "_" + key)
  {
    var od := origin + "_" + destination;
    assert AllNameChars(od) by {
      forall i | 0 <= i < |od| ensures IsNameChar(od[i]) {
        if i > |origin| {
          assert od[i] == destination[i - |origin| - 1];
        }
      }
    }
    var head := od + "_" + key;
    forall i | 0 <= i < |head| ensures IsNameChar(head[i]) {
      if i > |od| {
        assert head[i] == key[i - |od| - 1];
      }
    }
  }

  /** `%Y%m%d_%H%M%S_` and three digits: the shape of a session timestamp. */
  predicate TimestampShape(ts: string) {
    |ts| == 19 && ts[8] == '_' && ts[15] == '_'
    && AllDigits(ts[..8]) && AllDigits(ts[9..15]) && AllDigits(ts[16..])
  }

  /** A current-form name reads back field by field. */
  lemma CurrentNameReads(head: string, departure: string, returnDate: string, ts: string)
    requires |head| >= 1 && AllNameChars(head)
    requires IsoShape(departure) && IsoShape(returnDate) && TimestampShape(ts)
    ensures ParseFilename(CurrentName(head, departure, returnDate, ts))
            == FileInfo(ReplaceChar(head, '_', ' '), departure, returnDate, ts[..8], ts[9..15], ts[16..])
  {
    var t := CurrentName(head, departure, returnDate, ts);
    CurrentNameFields(head, departure, returnDate, ts);
    DatesFields(departure, returnDate, ts);
    var r := |head| + 1;
    var rest := t[r..];
    assert t[..r - 1] == head;
    assert t[r..r + 10] == rest[..10] && t[r + 10] == rest[10];
    assert t[r + 11..r + 21] == rest[11..21] && t[r + 21] == rest[21];
    assert t[r + 22..r + 41] == ts;
    assert t[r + 41..r + 45] == ".txt";
    assert t[r + 22..r + 30] == ts[..8] && t[r + 30] == ts[8];
    assert t[r + 31..r + 37] == ts[9..15] && t[r + 37] == ts[15];
    assert t[r + 38..r + 41] == ts[16..];
    forall k | 0 <= k < r ensures IsNameChar(t[k]) {
      if k < r - 1 {
        assert t[k] == head[k];
      }
    }
    forall k | r + 38 <= k < r + 41 ensures IsDigit(t[k]) {
      assert t[k] == ts[16..][k - r - 38];
    }
    assert FixedFields(t, r);
    ParseFilenameAt(t, r, r + 41);
  }

  /** Without a round number, the current scrapers' name is the head
      `{origin}_{destination}_{key}` followed by the dated fields. */
  lemma BaseNameIsCurrent(origin: string, destination: string, key: string,
                          departure: string, returnDate: string, ts: string)
    ensures BaseName(None, origin, destination, key, departure, returnDate, ts) + ".txt"
            == CurrentName(origin + "_" + destination + "_" + key, departure, returnDate, ts)
  {
    assert RoundPrefix(None) == "";
    var head := origin + "_" + destination + "_" + key;
    assert "" + origin + "_" + destination + "_" + key == head;
  }

  /** The name the current scrapers give a page without a round number
      reads back as its dates and its timestamp; the airline group takes in
      the whole `{origin}_{destination}_{key}` head, so the airline filter
      is the route and the key with spaces for underscores. */
  lemma CurrentNameParses(origin: string, destination: string, key: string,
                          departure: string, returnDate: string, clock: Clock)
    requires AllNameChars(origin) && AllNameChars(destination) && AllNameChars(key)
    requires IsoShape(departure) && IsoShape(returnDate) && ValidClock(clock)
    ensures ParseFilename(BaseName(None, origin, destination, key, departure, returnDate, Timestamp(clock)) + ".txt")
            == FileInfo(ReplaceChar(origin + "_" + destination + "_" + key, '_', ' '), departure, returnDate,
                        Timestamp(clock)[..8], Timestamp(clock)[9..15], Timestamp(clock)[16..])
  {
    var ts := Timestamp(clock);
    var head := origin + "_" + destination + "_" + key;
    BaseNameIsCurrent(origin, destination, key, departure, returnDate, ts);
    HeadNameChars(origin, destination, key);
    CurrentNameReads(head, departure, returnDate, ts);
  }
}
