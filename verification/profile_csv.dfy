/** The hourly base profile as text: the parser behind the CSV upload, the
    upload's guard, and the template download that writes the profile back
    out one value per line.

    Text is a sequence of characters. Number parsing (`parseFloat`, with NaN
    as `None`) and number printing (`Number.prototype.toString`) are not
    modelled: they are parameters, and the round trip assumes only what it
    states about them. */
module ProfileCsv {

  import opened Wrappers

  // ---------------------------------------------------------------------
  // String.prototype.trim
  // ---------------------------------------------------------------------

  /** The white space and line terminators `String.prototype.trim` strips
      (ECMAScript WhiteSpace and LineTerminator). */
  predicate IsWhitespace(c: char)
  {
    || c == ' ' || c == '\t' || c == '\n' || c == '\r'
    || c == '\U{000B}' || c == '\U{000C}' || c == '\U{00A0}' || c == '\U{FEFF}'
    || c == '\U{1680}' || ('\U{2000}' <= c <= '\U{200A}')
    || c == '\U{2028}' || c == '\U{2029}' || c == '\U{202F}' || c == '\U{205F}'
    || c == '\U{3000}'
  }

  /** Neither end of `s` is white space. */
  predicate Trimmed(s: string)
  {
    |s| == 0 || (!IsWhitespace(s[0]) && !IsWhitespace(s[|s| - 1]))
  }

  /** Leading white space removed: a suffix of `s`, everything dropped was
      white space and what is left does not start with any. */
  function TrimStart(s: string): (r: string)
    ensures |r| <= |s| && r == s[|s| - |r|..]
    ensures forall i :: 0 <= i < |s| - |r| ==> IsWhitespace(s[i])
    ensures |r| == 0 || !IsWhitespace(r[0])
  {
    if |s| > 0 && IsWhitespace(s[0]) then TrimStart(s[1..]) else s
  }

  /** Trailing white space removed: a prefix of `s`, everything dropped was
      white space and what is left does not end with any. */
  function TrimEnd(s: string): (r: string)
    ensures |r| <= |s| && r == s[..|r|]
    ensures forall i :: |r| <= i < |s| ==> IsWhitespace(s[i])
    ensures |r| == 0 || !IsWhitespace(r[|r| - 1])
  {
    if |s| > 0 && IsWhitespace(s[|s| - 1]) then TrimEnd(s[..|s| - 1]) else s
  }

  /** `String.prototype.trim`: white space removed from both ends. */
  function Trim(s: string): (r: string)
    ensures Trimmed(r)
    ensures |r| <= |s|
  {
    var t := TrimStart(s);
    var r := TrimEnd(t);
    assert |r| > 0 ==> r[0] == t[0];
    r
  }

  /** What trim keeps: the slice of `s` left after dropping a white-space
      prefix and a white-space suffix (and, by `Trim`'s contract, neither of
      its ends is white space, so the prefix and suffix are maximal). */
  lemma TrimIsSlice(s: string)
    ensures exists i, j ::
      && 0 <= i <= j <= |s| && Trim(s) == s[i..j]
      && (forall k :: 0 <= k < i ==> IsWhitespace(s[k]))
      && (forall k :: j <= k < |s| ==> IsWhitespace(s[k]))
  {
    SliceBetweenWhitespace(s, TrimStart(s), Trim(s));
  }

  /** Dropping a white-space prefix of `s` and then a white-space suffix
      of what remains leaves a slice of `s` between the two. */
  lemma SliceBetweenWhitespace(s: string, t: string, r: string)
    requires |t| <= |s| && t == s[|s| - |t|..]
    requires forall k :: 0 <= k < |s| - |t| ==> IsWhitespace(s[k])
    requires |r| <= |t| && r == t[..|r|]
    requires forall k :: |r| <= k < |t| ==> IsWhitespace(t[k])
    ensures exists i, j ::
      && 0 <= i <= j <= |s| && r == s[i..j]
      && (forall k :: 0 <= k < i ==> IsWhitespace(s[k]))
      && (forall k :: j <= k < |s| ==> IsWhitespace(s[k]))
  {
    var i, j := |s| - |t|, |s| - |t| + |r|;
    assert r == s[i..j];
    forall k | j <= k < |s|
      ensures IsWhitespace(s[k])
    {
      assert s[k] == t[k - i];
    }
  }

  /** Trimming text that has no white space at either end changes nothing,
      so trimming is idempotent. */
  lemma TrimIdentity(s: string)
    requires Trimmed(s)
    ensures Trim(s) == s
  {
  }

  lemma TrimIdempotent(s: string)
    ensures Trim(Trim(s)) == Trim(s)
  {
    TrimIdentity(Trim(s));
  }

  // ---------------------------------------------------------------------
  // String.prototype.split on one character, and its inverse
  // ---------------------------------------------------------------------

  /** The pieces joined back with `sep` between consecutive ones. */
  function Join(parts: seq<string>, sep: char): string
  {
    if |parts| == 0 then ""
    else if |parts| == 1 then parts[0]
    else parts[0] + [sep] + Join(parts[1..], sep)
  }

  /** Splitting on a one-character separator: at least one piece (the empty
      text gives one empty piece), no piece holds the separator, and the
      pieces joined back with the separator give the text again. */
  function Split(s: string, sep: char): (r: seq<string>)
    ensures |r| >= 1
    ensures forall i :: 0 <= i < |r| ==> sep !in r[i]
    ensures Join(r, sep) == s
  {
    if |s| == 0 then [""]
    else
      var rest := Split(s[1..], sep);
      if s[0] == sep then
        assert s == [sep] + s[1..];
        [""] + rest
      else
        var r := [[s[0]] + rest[0]] + rest[1..];
        assert |rest| == 1 ==> Join(r, sep) == [s[0]] + rest[0];
        assert |rest| > 1 ==> Join(r, sep) == [s[0]] + Join(rest, sep) by {
          if |rest| > 1 {
            assert r[1..] == rest[1..];
          }
        }
        r
  }

  /** Text without the separator is one piece. */
  lemma {:induction false} SplitNoSeparator(p: string, sep: char)
    requires sep !in p
    ensures Split(p, sep) == [p]
  {
    if |p| > 0 {
      SplitNoSeparator(p[1..], sep);
      assert [p[0]] + p[1..] == p;
    }
  }

  /** A piece free of the separator followed by the separator splits off as
      the first piece. */
  lemma {:induction false} SplitFirstPiece(p: string, sep: char, rest: string)
    requires sep !in p
    ensures Split(p + [sep] + rest, sep) == [p] + Split(rest, sep)
  {
    var s := p + [sep] + rest;
    if |p| == 0 {
      assert s[1..] == rest;
    } else {
      SplitFirstPiece(p[1..], sep, rest);
      assert s[1..] == p[1..] + [sep] + rest;
      assert [p[0]] + p[1..] == p;
    }
  }

  /** Split undoes Join: pieces free of the separator are recovered exactly
      from their joined text. */
  lemma {:induction false} SplitJoin(parts: seq<string>, sep: char)
    requires |parts| >= 1
    requires forall i :: 0 <= i < |parts| ==> sep !in parts[i]
    ensures Split(Join(parts, sep), sep) == parts
  {
    if |parts| == 1 {
      SplitNoSeparator(parts[0], sep);
    } else {
      SplitJoin(parts[1..], sep);
      SplitFirstPiece(parts[0], sep, Join(parts[1..], sep));
      assert [parts[0]] + parts[1..] == parts;
    }
  }

  /** Joining one more piece appends the separator and that piece. */
  lemma {:induction false} JoinSnoc(parts: seq<string>, x: string, sep: char)
    requires |parts| >= 1
    ensures Join(parts + [x], sep) == Join(parts, sep) + [sep] + x
  {
    if |parts| > 1 {
      JoinSnoc(parts[1..], x, sep);
      assert (parts + [x])[1..] == parts[1..] + [x];
    }
  }

  // ---------------------------------------------------------------------
  // parseCSVProfile
  // ---------------------------------------------------------------------

  /** One carriage return dropped from the end of a line, if there is one. */
  function StripCarriageReturn(line: string): (r: string)
    ensures r == line || (line == r + ['\r'])
    ensures |line| > 0 && line[|line| - 1] == '\r' ==> |r| == |line| - 1
  {
    if |line| > 0 && line[|line| - 1] == '\r' then line[..|line| - 1] else line
  }

  /** `split(/\r?\n/)`: the text cut at every line feed, a carriage return
      right before a line feed going with it. Every line but the last lost
      the one carriage return that preceded its line feed. */
  function Lines(text: string): (r: seq<string>)
    ensures |r| == |Split(text, '\n')|
    ensures forall i :: 0 <= i < |r| ==> '\n' !in r[i]
    ensures r[|r| - 1] == Split(text, '\n')[|r| - 1]
    ensures forall i :: 0 <= i < |r| - 1 ==> r[i] == StripCarriageReturn(Split(text, '\n')[i])
  {
    var pieces := Split(text, '\n');
    seq(|pieces|, i requires 0 <= i < |pieces| =>
      if i < |pieces| - 1 then StripCarriageReturn(pieces[i]) else pieces[i])
  }

  /** Each token with white space removed from both ends. */
  function TrimAll(tokens: seq<string>): (r: seq<string>)
    ensures |r| == |tokens|
    ensures forall i :: 0 <= i < |r| ==> r[i] == Trim(tokens[i])
  {
    seq(|tokens|, i requires 0 <= i < |tokens| => Trim(tokens[i]))
  }

  /** The value tokens of the uploaded text: the trimmed text is cut into
      lines; a single line holding a comma is read as comma-separated values,
      each trimmed; otherwise every line is a value, untrimmed. */
  function Tokens(text: string): (r: seq<string>)
    ensures |r| >= 1
    ensures var lines := Lines(Trim(text));
      |lines| == 1 && ',' in lines[0] ==> |r| >= 2
  {
    var lines := Lines(Trim(text));
    if |lines| == 1 && ',' in lines[0] then
      var cells := Split(lines[0], ',');
      assert |cells| >= 2;
      TrimAll(cells)
    else lines
  }

  /** The tokens that parse as numbers, as numbers, in order; the others are
      dropped (`map(parseFloat)` then `filter(!isNaN)`). */
  function ParseNumbers(tokens: seq<string>, parse: string -> Option<real>): (r: seq<real>)
    ensures |r| <= |tokens|
  {
    if |tokens| == 0 then []
    else match parse(tokens[0])
      case Some(x) => [x] + ParseNumbers(tokens[1..], parse)
      case None => ParseNumbers(tokens[1..], parse)
  }

  /** When every token parses, nothing is dropped and the numbers are the
      parsed tokens position by position. */
  lemma {:induction false} ParseNumbersAllParse(tokens: seq<string>, parse: string -> Option<real>)
    requires forall i :: 0 <= i < |tokens| ==> parse(tokens[i]).Some?
    ensures |ParseNumbers(tokens, parse)| == |tokens|
    ensures forall i :: 0 <= i < |tokens| ==> ParseNumbers(tokens, parse)[i] == parse(tokens[i]).value
  {
    if |tokens| > 0 {
      ParseNumbersAllParse(tokens[1..], parse);
    }
  }

  /** When no token parses, no number comes out. */
  lemma {:induction false} ParseNumbersNoneParse(tokens: seq<string>, parse: string -> Option<real>)
    requires forall i :: 0 <= i < |tokens| ==> parse(tokens[i]) == None
    ensures ParseNumbers(tokens, parse) == []
  {
    if |tokens| > 0 {
      ParseNumbersNoneParse(tokens[1..], parse);
    }
  }

  /** Filtering distributes over concatenation: every token is parsed on
      its own, independently of its neighbours. */
  lemma {:induction false} ParseNumbersAppend(xs: seq<string>, ys: seq<string>, parse: string -> Option<real>)
    ensures ParseNumbers(xs + ys, parse) == ParseNumbers(xs, parse) + ParseNumbers(ys, parse)
  {
    if |xs| > 0 {
      ParseNumbersAppend(xs[1..], ys, parse);
      assert (xs + ys)[1..] == xs[1..] + ys;
    } else {
      assert xs + ys == ys;
    }
  }

  /** `parseCSVProfile`. */
  function ParseCsvProfile(text: string, parse: string -> Option<real>): (r: seq<real>)
    ensures |r| <= |Tokens(text)|
  {
    ParseNumbers(Tokens(text), parse)
  }

  /** The guard of the upload handler: the parsed profile replaces the
      current one only when it holds at least one number. */
  function UploadProfile(current: seq<real>, text: string, parse: string -> Option<real>): (r: seq<real>)
    ensures |ParseCsvProfile(text, parse)| > 0 ==> r == ParseCsvProfile(text, parse)
    ensures |ParseCsvProfile(text, parse)| == 0 ==> r == current
    ensures |current| > 0 ==> |r| > 0
  {
    var profile := ParseCsvProfile(text, parse);
    if |profile| > 0 then profile else current
  }

  // ---------------------------------------------------------------------
  // downloadTemplate, and the round trip
  // ---------------------------------------------------------------------

  /** Each value printed. */
  function ShowAll(profile: seq<real>, show: real -> string): (r: seq<string>)
    ensures |r| == |profile|
    ensures forall i :: 0 <= i < |r| ==> r[i] == show(profile[i])
  {
    seq(|profile|, i requires 0 <= i < |profile| => show(profile[i]))
  }

  /** The template text: the printed values, one per line, with no line feed
      after the last. */
  function Template(profile: seq<real>, show: real -> string): string
  {
    Join(ShowAll(profile, show), '\n')
  }

  /** `downloadTemplate`: builds the template text value by value. */
  method DownloadTemplate(profile: seq<real>, show: real -> string) returns (csv: string)
    ensures csv == Template(profile, show)
  {
    csv := "";
    ghost var shown := ShowAll(profile, show);
    for i := 0 to |profile|
      invariant i == 0 ==> csv == ""
      invariant 0 < i < |profile| ==> csv == Join(shown[..i], '\n') + "\n"
      invariant 0 < i == |profile| ==> csv == Join(shown[..i], '\n')
    {
      if i > 0 {
        JoinSnoc(shown[..i], shown[i], '\n');
        assert shown[..i + 1] == shown[..i] + [shown[i]];
      } else {
        assert shown[..1] == [shown[0]];
      }
      csv := csv + show(profile[i]);
      if i < |profile| - 1 {
        csv := csv + "\n";
      }
    }
    assert shown[..|profile|] == shown;
  }

  /** How a printed number looks: not empty, with no white space (so no line
      break) and no comma. `Number.prototype.toString` prints this way. */
  predicate Printable(s: string)
  {
    |s| > 0 && forall i :: 0 <= i < |s| ==> !IsWhitespace(s[i]) && s[i] != ','
  }

  /** A printable text holds no white space and no comma. */
  lemma PrintableExcludes(s: string, c: char)
    requires Printable(s)
    requires IsWhitespace(c) || c == ','
    ensures c !in s
  {
  }

  /** A template of `n` values has `n` lines. */
  lemma TemplateLines(profile: seq<real>, show: real -> string)
    requires |profile| >= 1
    requires forall i :: 0 <= i < |profile| ==> Printable(show(profile[i]))
    ensures Split(Template(profile, show), '\n') == ShowAll(profile, show)
  {
    var shown := ShowAll(profile, show);
    forall i | 0 <= i < |shown|
      ensures '\n' !in shown[i]
    {
      PrintableExcludes(shown[i], '\n');
    }
    SplitJoin(shown, '\n');
  }

  /** Read back as lines, a template gives the printed values: no printed
      value ends with a carriage return. */
  lemma TemplateLinesAreValues(profile: seq<real>, show: real -> string)
    requires |profile| >= 1
    requires forall i :: 0 <= i < |profile| ==> Printable(show(profile[i]))
    ensures Lines(Template(profile, show)) == ShowAll(profile, show)
  {
    var shown := ShowAll(profile, show);
    TemplateLines(profile, show);
    var lines := Lines(Template(profile, show));
    forall i | 0 <= i < |shown|
      ensures lines[i] == shown[i]
    {
      assert !IsWhitespace(shown[i][|shown[i]| - 1]);
    }
  }

  /** A template has no white space at either end. */
  lemma TemplateTrimmed(profile: seq<real>, show: real -> string)
    requires |profile| >= 1
    requires forall i :: 0 <= i < |profile| ==> Printable(show(profile[i]))
    ensures Trimmed(Template(profile, show))
  {
    var shown := ShowAll(profile, show);
    var first, last := shown[0], shown[|shown| - 1];
    assert Printable(first) && Printable(last);
    assert !IsWhitespace(first[0]) && !IsWhitespace(last[|last| - 1]);
    JoinEnds(shown, '\n');
  }

  /** The template a profile is downloaded as uploads as that same profile,
      given a number printer whose output the parser reads back. */
  lemma TemplateRoundTrip(profile: seq<real>, show: real -> string, parse: string -> Option<real>)
    requires |profile| >= 1
    requires forall i :: 0 <= i < |profile| ==> Printable(show(profile[i]))
    requires forall i :: 0 <= i < |profile| ==> parse(show(profile[i])) == Some(profile[i])
    ensures ParseCsvProfile(Template(profile, show), parse) == profile
  {
    var text := Template(profile, show);
    var shown := ShowAll(profile, show);
    TemplateTrimmed(profile, show);
    TrimIdentity(text);
    TemplateLinesAreValues(profile, show);
    assert Lines(Trim(text)) == shown;
    if |shown| == 1 {
      PrintableExcludes(shown[0], ',');
    }
    assert Tokens(text) == shown;
    forall i | 0 <= i < |shown|
      ensures parse(shown[i]) == Some(profile[i])
    {
    }
    ParseNumbersAllParse(shown, parse);
  }

  /** A character that no piece holds, other than the separator, is not in
      the joined text. */
  lemma {:induction false} JoinExcludes(parts: seq<string>, sep: char, c: char)
    requires c != sep
    requires forall i :: 0 <= i < |parts| ==> c !in parts[i]
    ensures c !in Join(parts, sep)
  {
    if |parts| > 1 {
      JoinExcludes(parts[1..], sep, c);
    }
  }

  /** Two or more pieces are joined with at least one separator. */
  lemma JoinHasSeparator(parts: seq<string>, sep: char)
    requires |parts| >= 2
    ensures sep in Join(parts, sep)
  {
    assert Join(parts, sep)[|parts[0]|] == sep;
  }

  /** A single comma-separated line: cells holding no line feed and no comma,
      with no white space at the very start or the very end of the line, are
      read back as the cells, each trimmed. */
  lemma CommaLineTokens(cells: seq<string>)
    requires |cells| >= 2
    requires forall i :: 0 <= i < |cells| ==> '\n' !in cells[i] && ',' !in cells[i]
    requires |cells[0]| > 0 && !IsWhitespace(cells[0][0])
    requires |cells[|cells| - 1]| > 0 && !IsWhitespace(cells[|cells| - 1][|cells[|cells| - 1]| - 1])
    ensures Tokens(Join(cells, ',')) == TrimAll(cells)
  {
    var text := Join(cells, ',');
    JoinEnds(cells, ',');
    TrimIdentity(text);
    CommaLineIsOneLine(cells);
    JoinHasSeparator(cells, ',');
    SplitJoin(cells, ',');
  }

  /** The joined cells form one line. */
  lemma CommaLineIsOneLine(cells: seq<string>)
    requires |cells| >= 1
    requires forall i :: 0 <= i < |cells| ==> '\n' !in cells[i]
    ensures Lines(Join(cells, ',')) == [Join(cells, ',')]
  {
    var text := Join(cells, ',');
    JoinExcludes(cells, ',', '\n');
    SplitNoSeparator(text, '\n');
  }

  /** Parsing a single comma-separated line parses its trimmed cells. */
  lemma CommaLineParses(cells: seq<string>, parse: string -> Option<real>)
    requires |cells| >= 2
    requires forall i :: 0 <= i < |cells| ==> '\n' !in cells[i] && ',' !in cells[i]
    requires |cells[0]| > 0 && !IsWhitespace(cells[0][0])
    requires |cells[|cells| - 1]| > 0 && !IsWhitespace(cells[|cells| - 1][|cells[|cells| - 1]| - 1])
    ensures ParseCsvProfile(Join(cells, ','), parse) == ParseNumbers(TrimAll(cells), parse)
  {
    CommaLineTokens(cells);
  }

  /** Printed values are left alone by trimming. */
  lemma TrimAllPrintable(cells: seq<string>)
    requires forall i :: 0 <= i < |cells| ==> Printable(cells[i])
    ensures TrimAll(cells) == cells
  {
    forall i | 0 <= i < |cells|
      ensures Trim(cells[i]) == cells[i]
    {
      TrimIdentity(cells[i]);
    }
  }

  /** Printed values written as one comma-separated line parse one by one. */
  lemma PrintableCommaLine(cells: seq<string>, parse: string -> Option<real>)
    requires |cells| >= 2
    requires forall i :: 0 <= i < |cells| ==> Printable(cells[i])
    ensures ParseCsvProfile(Join(cells, ','), parse) == ParseNumbers(cells, parse)
  {
    forall i | 0 <= i < |cells|
      ensures '\n' !in cells[i] && ',' !in cells[i]
    {
      PrintableExcludes(cells[i], '\n');
      PrintableExcludes(cells[i], ',');
    }
    assert Printable(cells[0]) && Printable(cells[|cells| - 1]);
    CommaLineParses(cells, parse);
    TrimAllPrintable(cells);
  }

  /** A profile of two or more values written as one comma-separated line
      uploads as that same profile, given a number printer whose output the
      parser reads back. */
  lemma CommaLineRoundTrip(profile: seq<real>, show: real -> string, parse: string -> Option<real>)
    requires |profile| >= 2
    requires forall i :: 0 <= i < |profile| ==> Printable(show(profile[i]))
    requires forall i :: 0 <= i < |profile| ==> parse(show(profile[i])) == Some(profile[i])
    ensures ParseCsvProfile(Join(ShowAll(profile, show), ','), parse) == profile
  {
    var shown := ShowAll(profile, show);
    PrintableCommaLine(shown, parse);
    ParseNumbersAllParse(shown, parse);
  }

  /** The joined text begins with the first piece and ends with the last. */
  lemma {:induction false} JoinEnds(parts: seq<string>, sep: char)
    requires |parts| >= 1 && |parts[0]| > 0 && |parts[|parts| - 1]| > 0
    ensures |Join(parts, sep)| > 0
    ensures Join(parts, sep)[0] == parts[0][0]
    ensures Join(parts, sep)[|Join(parts, sep)| - 1] == parts[|parts| - 1][|parts[|parts| - 1]| - 1]
  {
    if |parts| > 1 {
      JoinEndsWithLast(parts[1..], sep);
    }
  }

  /** The joined text ends with the last piece. */
  lemma {:induction false} JoinEndsWithLast(parts: seq<string>, sep: char)
    requires |parts| >= 1 && |parts[|parts| - 1]| > 0
    ensures |Join(parts, sep)| > 0
    ensures Join(parts, sep)[|Join(parts, sep)| - 1] == parts[|parts| - 1][|parts[|parts| - 1]| - 1]
  {
    if |parts| > 1 {
      JoinEndsWithLast(parts[1..], sep);
    }
  }

  /** An empty profile downloads as empty text, which uploads as no numbers
      when the empty token does not parse (`parseFloat("")` is NaN), so the
      upload keeps the profile it had. */
  lemma EmptyTemplateIsIgnored(current: seq<real>, show: real -> string, parse: string -> Option<real>)
    requires parse("") == None
    ensures Template([], show) == ""
    ensures ParseCsvProfile("", parse) == []
    ensures UploadProfile(current, Template([], show), parse) == current
  {
    assert Trim("") == "";
    assert Split("", '\n') == [""];
    assert Tokens("") == [""];
  }
}
