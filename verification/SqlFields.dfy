/** The scanner for the value list of an SQL INSERT line. */
module SqlFields {
  import opened Basics

  const MARKER := " VALUES ("
  const QUOTE := '\''

  /** Unicode white space. */
  predicate White(c: char) {
    var n := c as int;
    || 9 <= n <= 13 || n == 0x20 || n == 0x85 || n == 0xA0 || n == 0x1680 || 0x2000 <= n <= 0x200A
    || n == 0x2028 || n == 0x2029 || n == 0x202F || n == 0x205F || n == 0x3000
  }

  function TrimStart(s: string): string {
    if s == "" || !White(s[0]) then s else TrimStart(s[1..])
  }

  function TrimEnd(s: string): string {
    if s == "" || !White(s[|s| - 1]) then s else TrimEnd(s[..|s| - 1])
  }

  function Trim(s: string): string {
    TrimEnd(TrimStart(s))
  }

  // ----------------------------------------------------- what a scan computes

  /** The scanner between two characters, if it keeps every field. */
  datatype Scanner = Scanner(quoted: bool, wasQuoted: bool, buffer: string, fields: seq<Option<string>>)

  const Fresh := Scanner(false, false, "", [])

  /** A finished field: quoted text as it is, other text trimmed, NULL as none. */
  function Finish(wasQuoted: bool, buffer: string): Option<string> {
    if wasQuoted then Some(buffer) else if Trim(buffer) == "NULL" then None else Some(Trim(buffer))
  }

  function Scan(text: string, s: Scanner): Option<seq<Option<string>>>
    decreases |text|
  {
    if text == "" then
      if s.quoted then None else Some(s.fields + [Finish(s.wasQuoted, s.buffer)])
    else if s.quoted then
      if text[0] != QUOTE then Scan(text[1..], s.(buffer := s.buffer + [text[0]]))
      else if |text| > 1 && text[1] == QUOTE then Scan(text[2..], s.(buffer := s.buffer + [QUOTE]))
      else Scan(text[1..], s.(quoted := false))
    else if text[0] == QUOTE then
      Scan(text[1..], s.(quoted := true, wasQuoted := true, buffer := if Trim(s.buffer) == "" then "" else s.buffer))
    else if text[0] == ',' then
      Scan(text[1..], Scanner(false, false, "", s.fields + [Finish(s.wasQuoted, s.buffer)]))
    else if !s.wasQuoted || !White(text[0]) then
      Scan(text[1..], s.(buffer := s.buffer + [text[0]]))
    else
      Scan(text[1..], s)
  }

  /** Where the marker first starts, or the length of the line. */
  function Find(line: string): (n: nat)
    ensures n <= |line| && (n < |line| ==> MARKER <= line[n..])
    ensures forall i :: 0 <= i < n ==> !(MARKER <= line[i..])
  {
    if line == "" || MARKER <= line then 0
    else
      var n := Find(line[1..]);
      assert forall i :: 0 < i < n + 1 ==> line[i..] == line[1..][i - 1..];
      assert line[n + 1..] == line[1..][n..];
      n + 1
  }

  function TrimNewlines(s: string): string {
    if s == "" || (s[|s| - 1] != '\r' && s[|s| - 1] != '\n') then s else TrimNewlines(s[..|s| - 1])
  }

  /** The text between the parentheses, if the line has that form. */
  function Body(line: string): Option<string> {
    if Find(line) == |line| then None
    else Unclose(TrimNewlines(line[Find(line) + |MARKER|..]))
  }

  /** The text before the closing parenthesis and semicolon. */
  function Unclose(text: string): Option<string> {
    if |text| >= 2 && text[|text| - 2..] == ");" then Some(text[..|text| - 2]) else None
  }

  /** All fields of a line. */
  function AllFields(line: string): Option<seq<Option<string>>> {
    var body :- Body(line);
    Scan(body, Fresh)
  }

  // -------------------------------------------------------------- the scanner

  /** The last position at which a field is asked for. */
  predicate LastPosition(selected: seq<nat>, p: nat) {
    p < |selected| && forall q :: p < q < |selected| ==> selected[q] != selected[p]
  }

  ghost predicate PositionsOf(selected: seq<nat>, n: nat, positions: map<nat, nat>)
    requires n <= |selected|
  {
    && (forall f :: f in positions ==> positions[f] < n && selected[positions[f]] == f)
    && (forall p :: 0 <= p < n ==> selected[p] in positions && p <= positions[selected[p]])
  }

  method Positions(selected: seq<nat>) returns (positions: map<nat, nat>)
    ensures PositionsOf(selected, |selected|, positions)
  {
    positions := map[];
    for p := 0 to |selected|
      invariant PositionsOf(selected, p, positions)
    {
      positions := positions[selected[p] := p];
    }
  }

  /** The values found so far: for each position, the field it asks for if that
      field is finished and no later position asks for it too. */
  ghost predicate Projects(fields: seq<Option<string>>, selected: seq<nat>, result: seq<Option<string>>) {
    && |result| == |selected|
    && forall p :: 0 <= p < |selected| ==>
         result[p] == if selected[p] < |fields| && LastPosition(selected, p) then fields[selected[p]] else None
  }

  /** A field is put at the position that asks for it. */
  lemma ProjectsNext(fields: seq<Option<string>>, selected: seq<nat>, positions: map<nat, nat>,
                     result: seq<Option<string>>,
                     value: Option<string>)
    requires PositionsOf(selected, |selected|, positions) && Projects(fields, selected, result)
    ensures var result' := if |fields| in positions then result[positions[|fields|] := value] else result;
            Projects(fields + [value], selected, result')
  {
    var result' := if |fields| in positions then result[positions[|fields|] := value] else result;
    forall p | 0 <= p < |selected|
      ensures result'[p] == if selected[p] < |fields| + 1 && LastPosition(selected, p)
              then (fields + [value])[selected[p]] else None
    {
      if selected[p] == |fields| {
        var last := positions[|fields|];
        assert selected[last] == |fields| && p <= last;
        assert LastPosition(selected, p) <==> p == last by {
          assert forall q :: last < q < |selected| ==> q <= positions[selected[q]];
        }
      }
    }
  }

  /** The scanner of the importer keeps only the fields asked for. Its result is
      always the projection of the parse of all fields, and it fails on the same
      lines. */
  method ParseSelected(line: string, selected: seq<nat>) returns (r: Option<(nat, seq<Option<string>>)>)
    ensures r.Some? <==> AllFields(line).Some?
    ensures r.Some? ==> r.value.0 == |AllFields(line).value| && Projects(AllFields(line).value, selected, r.value.1)
  {
    var body := Body(line);
    if body.None? {
      return None;
    }
    var text := body.value;
    var positions := Positions(selected);
    var result := seq(|selected|, _ => None);
    var fieldIndex, quoted, wasQuoted, buffer := 0, false, false, "";
    var i := 0;
    ghost var all := Fresh;
    assert text[0..] == text;
    while i < |text|
      invariant i <= |text| && Scan(text[i..], all) == Scan(text, Fresh)
      invariant fieldIndex == |all.fields| && quoted == all.quoted && wasQuoted == all.wasQuoted
      invariant buffer == if fieldIndex in positions then all.buffer else ""
      invariant Projects(all.fields, selected, result)
    {
      var c := text[i];
      ghost var before := all;
      ghost var rest := text[i..];
      assert rest[1..] == text[i + 1..] && (|rest| > 1 ==> rest[2..] == text[i + 2..] && rest[1] == text[i + 1]);
      i := i + 1;
      if quoted {
        if c == QUOTE {
          if i < |text| && text[i] == QUOTE {
            buffer := if fieldIndex in positions then buffer + [QUOTE] else buffer;
            all := all.(buffer := all.buffer + [QUOTE]);
            i := i + 1;
          } else {
            quoted := false;
            all := all.(quoted := false);
          }
        } else {
          buffer := if fieldIndex in positions then buffer + [c] else buffer;
          all := all.(buffer := all.buffer + [c]);
        }
      } else if c == QUOTE {
        buffer := if Trim(buffer) == "" then "" else buffer;
        quoted, wasQuoted := true, true;
        all := all.(quoted := true, wasQuoted := true, buffer := if Trim(all.buffer) == "" then "" else all.buffer);
      } else if c == ',' {
        ProjectsNext(all.fields, selected, positions, result, Finish(all.wasQuoted, all.buffer));
        result := if fieldIndex in positions then result[positions[fieldIndex] := Finish(wasQuoted, buffer)]
            else result;
        all := Scanner(false, false, "", all.fields + [Finish(all.wasQuoted, all.buffer)]);
        fieldIndex, wasQuoted, buffer := fieldIndex + 1, false, "";
      } else if fieldIndex in positions && (!wasQuoted || !White(c)) {
        buffer := buffer + [c];
        all := all.(buffer := all.buffer + [c]);
      } else {
        all := if !all.wasQuoted || !White(c) then all.(buffer := all.buffer + [c]) else all;
      }
    }
    assert text[i..] == "";
    if quoted {
      return None;
    }
    ProjectsNext(all.fields, selected, positions, result, Finish(all.wasQuoted, all.buffer));
    result := if fieldIndex in positions then result[positions[fieldIndex] := Finish(wasQuoted, buffer)] else result;
    r := Some((fieldIndex + 1, result));
  }

  // ---------------------------------------------------------------- the printer

  datatype Value = Null | Bare(text: string) | Quoted(text: string)

  /** A value with the white space around it. */
  datatype Token = Token(lead: string, value: Value, trail: string)

  predicate Blank(s: string) {
    forall i :: 0 <= i < |s| ==> White(s[i])
  }

  /** Text that needs no quotes. */
  predicate Plain(s: string) {
    && (forall i :: 0 <= i < |s| ==> s[i] != QUOTE && s[i] != ',')
    && s != "NULL" && (s != "" ==> !White(s[0]) && !White(s[|s| - 1]))
  }

  predicate TokenOk(t: Token) {
    Blank(t.lead) && Blank(t.trail) && (t.value.Bare? ==> Plain(t.value.text))
  }

  /** Quotes doubled. */
  function Doubled(s: string): string {
    if s == "" then "" else (if s[0] == QUOTE then [QUOTE, QUOTE] else [s[0]]) + Doubled(s[1..])
  }

  function Show(v: Value): string {
    match v
    case Null => "NULL"
    case Bare(text) => text
    case Quoted(text) => [QUOTE] + Doubled(text) + [QUOTE]
  }

  function Meaning(v: Value): Option<string> {
    match v
    case Null => None
    case Bare(text) => Some(text)
    case Quoted(text) => Some(text)
  }

  function ShowToken(t: Token): string {
    t.lead + Show(t.value) + t.trail
  }

  /** The rest of a value list, each token after a comma. */
  function ShowMore(tokens: seq<Token>): string {
    if tokens == [] then "" else "," + ShowToken(tokens[0]) + ShowMore(tokens[1..])
  }

  function ShowAll(tokens: seq<Token>): string
    requires tokens != []
  {
    ShowToken(tokens[0]) + ShowMore(tokens[1..])
  }

  function Meanings(tokens: seq<Token>): seq<Option<string>> {
    if tokens == [] then [] else [Meaning(tokens[0].value)] + Meanings(tokens[1..])
  }

  lemma {:induction false} TrimStartPad(lead: string, s: string)
    requires Blank(lead)
    ensures TrimStart(lead + s) == TrimStart(s)
  {
    if lead != "" {
      assert (lead + s)[1..] == lead[1..] + s;
      TrimStartPad(lead[1..], s);
    } else {
      assert lead + s == s;
    }
  }

  lemma {:induction false} TrimEndPad(s: string, trail: string)
    requires Blank(trail)
    ensures TrimEnd(s + trail) == TrimEnd(s)
  {
    if trail != "" {
      assert (s + trail)[..|s + trail| - 1] == s + trail[..|trail| - 1];
      TrimEndPad(s, trail[..|trail| - 1]);
    } else {
      assert s + trail == s;
    }
  }

  /** Trimming takes off the white space around a text without any at its ends. */
  lemma TrimPad(lead: string, s: string, trail: string)
    requires Blank(lead) && Blank(trail) && (s != "" ==> !White(s[0]) && !White(s[|s| - 1]))
    ensures Trim(lead + s + trail) == s
  {
    assert lead + s + trail == lead + (s + trail);
    TrimStartPad(lead, s + trail);
    if s == "" {
      assert s + trail == trail == trail + "";
      TrimStartPad(trail, "");
    } else {
      TrimEndPad(s, trail);
    }
  }

  /** Characters that are neither quotes nor commas collect in the buffer. */
  lemma {:induction false} ScanText(text: string, rest: string, s: Scanner)
    requires !s.quoted && !s.wasQuoted && forall i :: 0 <= i < |text| ==> text[i] != QUOTE && text[i] != ','
    ensures Scan(text + rest, s) == Scan(rest, s.(buffer := s.buffer + text))
  {
    if text == "" {
      assert text + rest == rest && s.buffer + text == s.buffer;
    } else {
      assert (text + rest)[1..] == text[1..] + rest;
      ScanText(text[1..], rest, s.(buffer := s.buffer + [text[0]]));
      assert s.buffer + [text[0]] + text[1..] == s.buffer + text;
    }
  }

  /** An opening quote after nothing but white space. */
  lemma ScanOpen(rest: string, s: Scanner)
    requires !s.quoted && !s.wasQuoted && Trim(s.buffer) == ""
    ensures Scan([QUOTE] + rest, s) == Scan(rest, s.(quoted := true, wasQuoted := true, buffer := ""))
  {
    assert ([QUOTE] + rest)[1..] == rest;
    hide Trim;
  }

  /** Inside quotes: a closing quote, a doubled quote, any other character. */
  lemma ScanClose(rest: string, s: Scanner)
    requires s.quoted && (rest != "" ==> rest[0] != QUOTE)
    ensures Scan([QUOTE] + rest, s) == Scan(rest, s.(quoted := false))
  {
    assert ([QUOTE] + rest)[1..] == rest;
  }

  lemma ScanPair(rest: string, s: Scanner)
    requires s.quoted
    ensures Scan([QUOTE, QUOTE] + rest, s) == Scan(rest, s.(buffer := s.buffer + [QUOTE]))
  {
    assert ([QUOTE, QUOTE] + rest)[2..] == rest;
  }

  lemma ScanOther(c: char, rest: string, s: Scanner)
    requires s.quoted && c != QUOTE
    ensures Scan([c] + rest, s) == Scan(rest, s.(buffer := s.buffer + [c]))
  {
    assert ([c] + rest)[1..] == rest;
  }

  /** Inside quotes the doubled text and the closing quote give back the text. */
  lemma {:induction false} ScanDoubled(text: string, rest: string, s: Scanner)
    requires s.quoted && (rest != "" ==> rest[0] != QUOTE)
    ensures Scan(Doubled(text) + [QUOTE] + rest, s) == Scan(rest, s.(quoted := false, buffer := s.buffer + text))
  {
    var line := Doubled(text) + [QUOTE] + rest;
    hide Scan;
    if text == "" {
      assert line == [QUOTE] + rest && s.buffer + text == s.buffer;
      ScanClose(rest, s);
    } else {
      var more := Doubled(text[1..]) + [QUOTE] + rest;
      ScanDoubled(text[1..], rest, s.(buffer := s.buffer + [text[0]]));
      assert s.buffer + [text[0]] + text[1..] == s.buffer + text;
      if text[0] == QUOTE {
        assert line == [QUOTE, QUOTE] + more;
        ScanPair(more, s);
      } else {
        assert line == [text[0]] + more;
        ScanOther(text[0], more, s);
      }
    }
  }

  /** White space after a quoted text is dropped. */
  lemma {:induction false} ScanTrail(trail: string, rest: string, s: Scanner)
    requires !s.quoted && s.wasQuoted && Blank(trail)
    ensures Scan(trail + rest, s) == Scan(rest, s)
  {
    if trail == "" {
      assert trail + rest == rest;
    } else {
      assert White(trail[0]) && (trail + rest)[1..] == trail[1..] + rest;
      ScanTrail(trail[1..], rest, s);
    }
  }

  predicate AtEnd(rest: string) {
    rest == "" || rest[0] == ','
  }

  lemma BlankIsText(s: string)
    requires Blank(s)
    ensures forall i :: 0 <= i < |s| ==> s[i] != QUOTE && s[i] != ','
  {
    forall i | 0 <= i < |s|
      ensures s[i] != QUOTE && s[i] != ','
    {
      assert White(s[i]);
    }
  }

  /** Scanning one token leaves a scanner that finishes with its meaning. */
  lemma ScanToken(t: Token, rest: string, fields: seq<Option<string>>) returns (s: Scanner)
    requires TokenOk(t) && AtEnd(rest)
    ensures Scan(ShowToken(t) + rest, Scanner(false, false, "", fields)) == Scan(rest, s)
    ensures !s.quoted && s.fields == fields && Finish(s.wasQuoted, s.buffer) == Meaning(t.value)
  {
    var start := Scanner(false, false, "", fields);
    BlankIsText(t.lead);
    BlankIsText(t.trail);
    if t.value.Quoted? {
      s := ScanQuotedToken(t, rest, fields);
    } else {
      var text := Show(t.value);
      ScanText(ShowToken(t), rest, start);
      assert "" + ShowToken(t) == ShowToken(t) == t.lead + text + t.trail;
      s := start.(buffer := ShowToken(t));
      TrimPad(t.lead, text, t.trail);
    }
  }

  lemma ScanQuotedToken(t: Token, rest: string, fields: seq<Option<string>>) returns (s: Scanner)
    requires TokenOk(t) && AtEnd(rest) && t.value.Quoted?
    ensures Scan(ShowToken(t) + rest, Scanner(false, false, "", fields)) == Scan(rest, s)
    ensures s == Scanner(false, true, t.value.text, fields)
  {
    var start := Scanner(false, false, "", fields);
    BlankIsText(t.lead);
    var tail := t.trail + rest;
    var inner := Doubled(t.value.text) + [QUOTE] + tail;
    var line := ShowToken(t) + rest;
    assert line == t.lead + ([QUOTE] + inner);
    ScanText(t.lead, [QUOTE] + inner, start);
    assert Trim(t.lead) == "" by {
      TrimPad(t.lead, "", "");
      assert t.lead + "" + "" == t.lead;
    }
    assert "" + t.lead == t.lead;
    hide Scan, Doubled, Trim;
    ScanOpen(inner, start.(buffer := t.lead));
    assert tail != "" ==> tail[0] != QUOTE by {
      BlankIsText(t.trail);
    }
    ScanDoubled(t.value.text, tail, Scanner(true, true, "", fields));
    s := Scanner(false, true, t.value.text, fields);
    assert "" + t.value.text == t.value.text;
    ScanTrail(t.trail, rest, s);
  }

  lemma ScanComma(rest: string, s: Scanner)
    requires !s.quoted
    ensures Scan("," + rest, s) == Scan(rest, Scanner(false, false, "", s.fields + [Finish(s.wasQuoted, s.buffer)]))
  {
    assert ("," + rest)[1..] == rest;
  }

  ghost predicate TokensOk(tokens: seq<Token>) {
    forall i :: 0 <= i < |tokens| ==> TokenOk(tokens[i])
  }

  lemma MeaningsCons(fields: seq<Option<string>>, tokens: seq<Token>)
    requires tokens != []
    ensures fields + [Meaning(tokens[0].value)] + Meanings(tokens[1..]) == fields + Meanings(tokens)
  {
  }

  lemma ShowMoreCons(tokens: seq<Token>)
    requires tokens != []
    ensures ShowMore(tokens) == "," + (ShowToken(tokens[0]) + ShowMore(tokens[1..])) && AtEnd(ShowMore(tokens[1..]))
  {
    MoreAtEnd(tokens[1..]);
  }

  /** Scanning the rest of a list finishes the open field and then gives the
      meanings of the tokens. */
  lemma {:induction false} ScanMore(tokens: seq<Token>, s: Scanner)
    requires !s.quoted && TokensOk(tokens)
    ensures Scan(ShowMore(tokens), s) == Some(s.fields + [Finish(s.wasQuoted, s.buffer)] + Meanings(tokens))
    decreases |tokens|
  {
    var fields := s.fields + [Finish(s.wasQuoted, s.buffer)];
    if tokens == [] {
      assert fields + [] == fields;
    } else {
      assert TokenOk(tokens[0]) && TokensOk(tokens[1..]);
      hide *;
      ShowMoreCons(tokens);
      ScanComma(ShowToken(tokens[0]) + ShowMore(tokens[1..]), s);
      var s' := ScanToken(tokens[0], ShowMore(tokens[1..]), fields);
      ScanMore(tokens[1..], s');
      MeaningsCons(fields, tokens);
    }
  }

  /** The line of an INSERT. */
  function Line(prefix: string, tokens: seq<Token>, newlines: string): string
    requires tokens != []
  {
    prefix + MARKER + ShowAll(tokens) + ");" + newlines
  }

  predicate Newlines(s: string) {
    forall i :: 0 <= i < |s| ==> s[i] == '\r' || s[i] == '\n'
  }

  /** The marker does not start inside the text before the list. */
  predicate NoEarlierMarker(prefix: string, line: string) {
    forall i :: 0 <= i < |prefix| && i <= |line| ==> !(MARKER <= line[i..])
  }

  lemma {:induction false} NewlinesGo(s: string, newlines: string)
    requires Newlines(newlines)
    requires s != "" && s[|s| - 1] != '\r' && s[|s| - 1] != '\n'
    ensures TrimNewlines(s + newlines) == s
  {
    if newlines == "" {
      assert s + newlines == s;
    } else {
      assert (s + newlines)[..|s + newlines| - 1] == s + newlines[..|newlines| - 1];
      NewlinesGo(s, newlines[..|newlines| - 1]);
    }
  }

  lemma BodyOfLine(prefix: string, tokens: seq<Token>, newlines: string)
    requires tokens != [] && NoEarlierMarker(prefix, Line(prefix, tokens, newlines))
    requires Newlines(newlines)
    ensures Body(Line(prefix, tokens, newlines)) == Some(ShowAll(tokens))
  {
    var body := ShowAll(tokens);
    var text := body + ");";
    assert Line(prefix, tokens, newlines) == prefix + (MARKER + (text + newlines));
    hide *;
    FindAt(prefix, text + newlines);
    assert text[|text| - 1] == ')' || text[|text| - 1] == ';';
    NewlinesGo(text, newlines);
    Uncloses(body);
    BodyIs(Line(prefix, tokens, newlines), text);
  }

  lemma Uncloses(body: string)
    ensures Unclose(body + ");") == Some(body)
  {
    var text := body + ");";
    assert text[|text| - 2..] == ");" && text[..|text| - 2] == body;
  }

  lemma BodyIs(line: string, text: string)
    requires Find(line) < |line| && Find(line) + |MARKER| <= |line|
    requires TrimNewlines(line[Find(line) + |MARKER|..]) == text
    ensures Body(line) == Unclose(text)
  {
    hide Find, TrimNewlines, Unclose;
  }

  lemma FindAt(prefix: string, rest: string)
    requires NoEarlierMarker(prefix, prefix + (MARKER + rest))
    ensures var line := prefix + (MARKER + rest);
            Find(line) == |prefix| && |prefix| < |line| && line[|prefix| + |MARKER|..] == rest
  {
    var line := prefix + (MARKER + rest);
    assert line[|prefix|..] == MARKER + rest;
    assert MARKER <= line[|prefix|..];
    assert line[|prefix| + |MARKER|..] == (MARKER + rest)[|MARKER|..] == rest;
  }

  /** Parsing undoes printing: whatever the values, the white space around them
      and the text before them, the same fields come back, and their number. */
  lemma ParseUndoesPrint(prefix: string, tokens: seq<Token>, newlines: string)
    requires tokens != [] && TokensOk(tokens)
    requires NoEarlierMarker(prefix, Line(prefix, tokens, newlines))
    requires Newlines(newlines)
    ensures AllFields(Line(prefix, tokens, newlines)) == Some(Meanings(tokens)) && |Meanings(tokens)| == |tokens|
  {
    BodyOfLine(prefix, tokens, newlines);
    ScanAll(tokens);
    hide Scan, Body, Line, Meanings, ShowAll;
  }

  lemma ScanAll(tokens: seq<Token>)
    requires tokens != [] && TokensOk(tokens)
    ensures Scan(ShowAll(tokens), Fresh) == Some(Meanings(tokens)) && |Meanings(tokens)| == |tokens|
  {
    assert TokenOk(tokens[0]) && TokensOk(tokens[1..]);
    var start := Scanner(false, false, "", []);
    assert Fresh == start && ShowAll(tokens) == ShowToken(tokens[0]) + ShowMore(tokens[1..]);
    hide *;
    MoreAtEnd(tokens[1..]);
    var s := ScanToken(tokens[0], ShowMore(tokens[1..]), []);
    ScanMore(tokens[1..], s);
    MeaningsCons([], tokens);
    assert [] + Meanings(tokens) == Meanings(tokens);
    MeaningsLength(tokens);
  }

  lemma MoreAtEnd(tokens: seq<Token>)
    ensures AtEnd(ShowMore(tokens))
  {
  }

  lemma MeaningsLength(tokens: seq<Token>)
    ensures |Meanings(tokens)| == |tokens|
  {
  }
}
