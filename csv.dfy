/**
 * The `;`-separated text both screens offer for download: a header line, then one
 * `semana;pdv;produto;quantidade` line per forecast record, lines joined by `\n` and no
 * trailing newline. Numbers are written the way a template literal writes an integer:
 * decimal digits without leading zeros, and a `-` in front of a negative value.
 */
module Csv {
  import opened Records

  /** The character of a decimal digit. */
  function DigitChar(d: int): (c: char)
    requires 0 <= d < 10
    ensures '0' <= c <= '9'
  {
    (('0' as int) + d) as char
  }

  /** The value of a decimal digit's character. */
  function DigitValue(c: char): (d: int)
    requires '0' <= c <= '9'
    ensures 0 <= d < 10
  {
    (c as int) - ('0' as int)
  }

  predicate IsDigit(c: char)
  {
    '0' <= c <= '9'
  }

  predicate AllDigits(s: string)
  {
    forall i :: 0 <= i < |s| ==> IsDigit(s[i])
  }

  /** The decimal digits of `n`, most significant first. */
  function NatToString(n: nat): (s: string)
    ensures |s| > 0 && AllDigits(s)
    decreases n
  {
    if n < 10 then [DigitChar(n)] else NatToString(n / 10) + [DigitChar(n % 10)]
  }

  /** `${n}` for an integer. */
  function IntToString(n: int): string
  {
    if n < 0 then "-" + NatToString(-n) else NatToString(n)
  }

  /** The value of a string of decimal digits. */
  function DigitsValue(s: string): nat
    requires AllDigits(s)
  {
    if s == [] then 0 else DigitsValue(s[..|s| - 1]) * 10 + DigitValue(s[|s| - 1])
  }

  /** Reads back an optionally signed decimal integer. */
  function ParseInt(s: string): Option<int>
  {
    if |s| > 0 && AllDigits(s) then Some(DigitsValue(s))
    else if |s| > 1 && s[0] == '-' && AllDigits(s[1..]) then Some(-(DigitsValue(s[1..]) as int))
    else None
  }

  /** The digits are canonical: a leading zero only in "0" itself. */
  lemma {:induction false} NatToStringCanonical(n: nat)
    ensures NatToString(n)[0] == '0' <==> n == 0
  {
    if n >= 10 {
      NatToStringCanonical(n / 10);
      assert NatToString(n)[0] == NatToString(n / 10)[0];
    }
  }

  lemma {:induction false} NatToStringRoundTrip(n: nat)
    ensures DigitsValue(NatToString(n)) == n
    decreases n
  {
    if n >= 10 {
      var s := NatToString(n);
      NatToStringRoundTrip(n / 10);
      assert s[..|s| - 1] == NatToString(n / 10);
    }
  }

  /** Writing an integer and reading it back gives the integer. */
  lemma {:induction false} IntToStringRoundTrip(n: int)
    ensures ParseInt(IntToString(n)) == Some(n)
  {
    if n < 0 {
      var s := IntToString(n);
      NatToStringRoundTrip(-n);
      assert s[1..] == NatToString(-n);
      assert !IsDigit(s[0]);
    } else {
      NatToStringRoundTrip(n);
    }
  }

  /** A written integer holds neither separator. */
  lemma {:induction false} IntToStringNoSeparator(n: int)
    ensures ';' !in IntToString(n) && '\n' !in IntToString(n)
  {
    var d := NatToString(if n < 0 then -n else n);
    assert forall i :: 0 <= i < |d| ==> d[i] != ';' && d[i] != '\n';
  }

  /** `parts.join(sep)` for a one-character separator. */
  function Join(parts: seq<string>, sep: char): string
  {
    if |parts| == 0 then ""
    else if |parts| == 1 then parts[0]
    else parts[0] + [sep] + Join(parts[1..], sep)
  }

  /** The pieces of `s` between occurrences of `sep`. */
  function Split(s: string, sep: char): (r: seq<string>)
    ensures |r| > 0
  {
    if |s| == 0 then [""]
    else
      var rest := Split(s[1..], sep);
      if s[0] == sep then [""] + rest else [[s[0]] + rest[0]] + rest[1..]
  }

  lemma {:induction false} SplitNoSeparator(p: string, sep: char)
    requires sep !in p
    ensures Split(p, sep) == [p]
  {
    if |p| > 0 {
      SplitNoSeparator(p[1..], sep);
      assert [p[0]] + p[1..] == p;
    }
  }

  lemma {:induction false} SplitAfterPiece(p: string, sep: char, t: string)
    requires sep !in p
    ensures Split(p + [sep] + t, sep) == [p] + Split(t, sep)
  {
    if |p| == 0 {
      assert p + [sep] + t == [sep] + t;
      assert ([sep] + t)[1..] == t;
    } else {
      var s := p + [sep] + t;
      assert s[1..] == p[1..] + [sep] + t;
      SplitAfterPiece(p[1..], sep, t);
      assert [p[0]] + p[1..] == p;
    }
  }

  /** Joining pieces that do not hold the separator and splitting again gives the pieces back. */
  lemma {:induction false} SplitJoin(parts: seq<string>, sep: char)
    requires |parts| > 0 && forall i :: 0 <= i < |parts| ==> sep !in parts[i]
    ensures Split(Join(parts, sep), sep) == parts
  {
    if |parts| == 1 {
      SplitNoSeparator(parts[0], sep);
    } else {
      SplitJoin(parts[1..], sep);
      SplitAfterPiece(parts[0], sep, Join(parts[1..], sep));
      assert [parts[0]] + parts[1..] == parts;
    }
  }

  /** The header line. */
  const Header: string := "semana;pdv;produto;quantidade"

  /** `${semana};${pdv};${produto};${quantidade}`. */
  function RecordLine(r: ForecastRecord): string
  {
    IntToString(r.semana) + ";" + IntToString(r.pdv) + ";" + IntToString(r.produto) + ";"
    + IntToString(r.quantidade)
  }

  /** The record lines, in record order. */
  function Lines(items: seq<ForecastRecord>): (lines: seq<string>)
    ensures |lines| == |items|
  {
    seq(|items|, i requires 0 <= i < |items| => RecordLine(items[i]))
  }

  /** The fields of a record, as written. */
  function Fields(r: ForecastRecord): seq<string>
  {
    [IntToString(r.semana), IntToString(r.pdv), IntToString(r.produto), IntToString(r.quantidade)]
  }

  /** A record line is its four fields joined by `;`, and it holds no newline. */
  lemma {:induction false} RecordLineFields(r: ForecastRecord)
    ensures RecordLine(r) == Join(Fields(r), ';')
    ensures '\n' !in RecordLine(r)
  {
    var f := Fields(r);
    assert f[1..][1..][1..] == [f[3]];
    assert Join(f[1..][1..], ';') == f[2] + ";" + f[3];
    IntToStringNoSeparator(r.semana);
    IntToStringNoSeparator(r.pdv);
    IntToStringNoSeparator(r.produto);
    IntToStringNoSeparator(r.quantidade);
  }

  /** Reads a record line back. */
  function ParseRecordLine(line: string): Option<ForecastRecord>
  {
    var f := Split(line, ';');
    if |f| != 4 then None
    else
      match (ParseInt(f[0]), ParseInt(f[1]), ParseInt(f[2]), ParseInt(f[3]))
      case (Some(w), Some(p), Some(q), Some(x)) => Some(ForecastRecord(w, p, q, x))
      case _ => None
  }

  lemma {:induction false} RecordLineRoundTrip(r: ForecastRecord)
    ensures ParseRecordLine(RecordLine(r)) == Some(r)
  {
    RecordLineFields(r);
    IntToStringNoSeparator(r.semana);
    IntToStringNoSeparator(r.pdv);
    IntToStringNoSeparator(r.produto);
    IntToStringNoSeparator(r.quantidade);
    SplitJoin(Fields(r), ';');
    IntToStringRoundTrip(r.semana);
    IntToStringRoundTrip(r.pdv);
    IntToStringRoundTrip(r.produto);
    IntToStringRoundTrip(r.quantidade);
  }

  /** `[header, ...lines].join("\n")`: the export of the results screen. */
  function ExportCsv(items: seq<ForecastRecord>): string
  {
    Join([Header] + Lines(items), '\n')
  }

  /** Reads an exported text back: the header, then one record per line. */
  function ParseCsv(text: string): Option<seq<ForecastRecord>>
  {
    var lines := Split(text, '\n');
    if lines[0] != Header then None else ParseLines(lines[1..])
  }

  function ParseLines(lines: seq<string>): Option<seq<ForecastRecord>>
  {
    if lines == [] then Some([])
    else
      match (ParseLines(lines[..|lines| - 1]), ParseRecordLine(lines[|lines| - 1]))
      case (Some(init), Some(r)) => Some(init + [r])
      case _ => None
  }

  /** Lines that each read back as a record read back as those records. */
  lemma {:induction false} ParseLinesEach(lines: seq<string>, items: seq<ForecastRecord>)
    requires |lines| == |items|
    requires forall i :: 0 <= i < |lines| ==> ParseRecordLine(lines[i]) == Some(items[i])
    ensures ParseLines(lines) == Some(items)
  {
    if lines != [] {
      var n := |lines| - 1;
      ParseLinesEach(lines[..n], items[..n]);
      assert items == items[..n] + [items[n]];
    }
  }

  lemma {:induction false} ParseLinesOfLines(items: seq<ForecastRecord>)
    ensures ParseLines(Lines(items)) == Some(items)
  {
    var lines := Lines(items);
    forall i | 0 <= i < |lines| ensures ParseRecordLine(lines[i]) == Some(items[i]) {
      RecordLineRoundTrip(items[i]);
    }
    ParseLinesEach(lines, items);
  }

  /** The export has one line for the header and one per record, each record line in record order. */
  lemma {:induction false} ExportCsvLines(items: seq<ForecastRecord>)
    ensures Split(ExportCsv(items), '\n') == [Header] + Lines(items)
    ensures |Split(ExportCsv(items), '\n')| == 1 + |items|
  {
    var lines := [Header] + Lines(items);
    forall i | 0 <= i < |lines| ensures '\n' !in lines[i] {
      if i > 0 {
        RecordLineFields(items[i - 1]);
      }
    }
    SplitJoin(lines, '\n');
  }

  /** Reading an export back gives the records it was written from, in order. */
  lemma {:induction false} ExportCsvRoundTrip(items: seq<ForecastRecord>)
    ensures ParseCsv(ExportCsv(items)) == Some(items)
  {
    ExportCsvLines(items);
    assert ([Header] + Lines(items))[1..] == Lines(items);
    ParseLinesOfLines(items);
  }

  /**
   * The download of the testing screen: nothing for no results, otherwise the header, a
   * newline, and the record lines joined by newlines.
   */
  function DownloadCsv(results: seq<ForecastRecord>): (r: Option<string>)
    ensures r.None? <==> results == []
  {
    if |results| == 0 then None else Some(Header + "\n" + Join(Lines(results), '\n'))
  }

  /** Where the download produces something, it is the same text as the results screen's export. */
  lemma {:induction false} DownloadIsExport(results: seq<ForecastRecord>)
    requires results != []
    ensures DownloadCsv(results) == Some(ExportCsv(results))
  {
    var lines := [Header] + Lines(results);
    assert lines[1..] == Lines(results);
  }

  /** The export of no records is the header alone. */
  lemma {:induction false} ExportCsvEmpty()
    ensures ExportCsv([]) == Header
  {
    assert [Header] + Lines([]) == [Header];
  }
}
