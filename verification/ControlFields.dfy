/** Debian control stanzas: `key: value` lines with continuation lines. */
module ControlFields {

  type Fields = map<string, string>

  // ---------------------------------------------------------------------------
  // Text
  // ---------------------------------------------------------------------------

  /** Unicode White_Space, which `trim` removes. */
  predicate IsSpace(c: char) {
    '\t' <= c <= '\r' || c == ' ' || c == '\U{85}' || c == '\U{A0}' || c == '\U{1680}'
    || '\U{2000}' <= c <= '\U{200A}' || c == '\U{2028}' || c == '\U{2029}'
    || c == '\U{202F}' || c == '\U{205F}' || c == '\U{3000}'
  }

  /** A continuation line starts with one of these. */
  predicate Blank(c: char) {
    c == ' ' || c == '\t'
  }

  function TrimStart(s: string): (t: string)
    ensures |t| <= |s| && t == s[|s| - |t|..]
    ensures t != [] ==> !IsSpace(t[0])
    ensures |t| < |s| <==> s != [] && IsSpace(s[0])
  {
    if s != [] && IsSpace(s[0]) then TrimStart(s[1..]) else s
  }

  function TrimEnd(s: string): (t: string)
    ensures |t| <= |s| && t == s[..|t|]
    ensures t != [] ==> !IsSpace(t[|t| - 1])
    ensures |t| < |s| <==> s != [] && IsSpace(s[|s| - 1])
  {
    if s != [] && IsSpace(s[|s| - 1]) then TrimEnd(s[..|s| - 1]) else s
  }

  function Trim(s: string): (t: string)
    ensures |t| <= |s|
    ensures |t| == |s| ==> t == s
    ensures t != [] ==> !IsSpace(t[0]) && !IsSpace(t[|t| - 1])
    ensures s == [] || (!IsSpace(s[0]) && !IsSpace(s[|s| - 1])) ==> t == s
  {
    TrimEnd(TrimStart(s))
  }

  /** The place of the trimmed text. */
  lemma TrimPlace(s: string) returns (lo: nat, hi: nat)
    ensures lo <= hi <= |s| && Trim(s) == s[lo..hi]
  {
    var u := TrimStart(s);
    var t := TrimEnd(u);
    lo, hi := |s| - |u|, |s| - |u| + |t|;
    assert t == u[..|t|] == s[lo..hi];
  }

  /** The position of the first `c`, or the length. */
  function Find(s: string, c: char): (i: nat)
    ensures i <= |s|
    ensures forall j :: 0 <= j < i ==> s[j] != c
    ensures i < |s| ==> s[i] == c
  {
    if s == [] || s[0] == c then 0 else 1 + Find(s[1..], c)
  }

  lemma FindIs(s: string, c: char, i: nat)
    requires i < |s| && s[i] == c && forall j :: 0 <= j < i ==> s[j] != c
    ensures Find(s, c) == i
  {
  }

  function StripCr(line: string): string {
    if line != [] && line[|line| - 1] == '\r' then line[..|line| - 1] else line
  }

  /** `str::lines` */
  function Lines(s: string): (lines: seq<string>)
    ensures forall l :: l in lines ==> '\n' !in l
    decreases |s|
  {
    if s == [] then []
    else
      var i := Find(s, '\n');
      if i == |s| then [s] else [StripCr(s[..i])] + Lines(s[i + 1..])
  }

  // ---------------------------------------------------------------------------
  // Parsing
  // ---------------------------------------------------------------------------

  /** The fields so far and the one being collected; an empty key means none. */
  datatype State = State(fields: Fields, key: string, val: string)

  function Flush(st: State): Fields {
    if st.key != "" then st.fields[st.key := Trim(st.val)] else st.fields
  }

  function ReadLine(st: State, line: string): State {
    if line == [] then st
    else if Blank(line[0]) then st.(val := st.val + "\n" + line)
    else
      var colon := Find(line, ':');
      if colon < |line| then State(Flush(st), Trim(line[..colon]), Trim(line[colon + 1..])) else st
  }

  function ReadLines(st: State, lines: seq<string>): State
    decreases |lines|
  {
    if lines == [] then st else ReadLines(ReadLine(st, lines[0]), lines[1..])
  }

  function Parsed(content: string): Fields {
    Flush(ReadLines(State(map[], "", ""), Lines(content)))
  }

  lemma {:induction false} ReadLinesAppend(st: State, a: seq<string>, b: seq<string>)
    ensures ReadLines(st, a + b) == ReadLines(ReadLines(st, a), b)
    decreases |a|
  {
    if a == [] {
      assert a + b == b;
    } else {
      assert (a + b)[0] == a[0] && (a + b)[1..] == a[1..] + b;
      ReadLinesAppend(ReadLine(st, a[0]), a[1..], b);
    }
  }

  /** `parse_control_fields` */
  method ParseControlFields(content: string) returns (fields: Fields)
    ensures fields == Parsed(content)
  {
    hide Lines, Find, Trim, ReadLines;
    fields := map[];
    var currentKey, currentVal := "", "";
    var lines := Lines(content);
    ghost var start := State(map[], "", "");
    NoLines(start);
    for i := 0 to |lines|
      invariant State(fields, currentKey, currentVal) == ReadLines(start, lines[..i])
    {
      var line := lines[i];
      ReadLinesNext(start, lines, i);
      if line == "" {
        continue;
      }
      if line[0] == ' ' || line[0] == '\t' {
        currentVal := currentVal + "\n";
        currentVal := currentVal + line;
      } else {
        var colon := Find(line, ':');
        if colon < |line| {
          if currentKey != "" {
            fields := fields[currentKey := Trim(currentVal)];
          }
          currentKey := Trim(line[..colon]);
          currentVal := Trim(line[colon + 1..]);
        }
      }
    }
    assert lines[..|lines|] == lines;
    if currentKey != "" {
      fields := fields[currentKey := Trim(currentVal)];
    }
  }

  lemma ReadLinesNext(st: State, lines: seq<string>, i: nat)
    requires i < |lines|
    ensures ReadLines(st, lines[..i + 1]) == ReadLine(ReadLines(st, lines[..i]), lines[i])
  {
    hide ReadLine;
    assert lines[..i + 1] == lines[..i] + [lines[i]];
    ReadLinesAppend(st, lines[..i], [lines[i]]);
  }

  // ---------------------------------------------------------------------------
  // What parsing yields
  // ---------------------------------------------------------------------------

  predicate PlainKey(k: string) {
    && k != "" && !IsSpace(k[0]) && !IsSpace(k[|k| - 1])
    && ':' !in k && '\n' !in k
  }

  /** Every line after the first is a continuation line. */
  predicate Continued(v: string) {
    forall i :: 0 <= i < |v| && v[i] == '\n' ==> i + 1 < |v| && Blank(v[i + 1])
  }

  predicate Formed(v: string) {
    Continued(v) && Trim(v) == v
  }

  predicate FieldsOk(fields: Fields) {
    forall k :: k in fields ==> PlainKey(k) && Formed(fields[k])
  }

  lemma TrimContinued(v: string)
    requires Continued(v)
    ensures Formed(Trim(v))
  {
    TrimTrimmed(v);
    hide Trim;
    var t := Trim(v);
    var lo, hi := TrimPlace(v);
    forall i | 0 <= i < |t| && t[i] == '\n' ensures i + 1 < |t| && Blank(t[i + 1]) {
      assert v[lo + i] == '\n';
      assert IsSpace('\n') && i != |t| - 1;
    }
  }

  lemma TrimTrimmed(v: string)
    ensures Trim(Trim(v)) == Trim(v)
  {
    hide Trim;
  }

  predicate StateOk(st: State) {
    FieldsOk(st.fields) && (st.key == "" || PlainKey(st.key)) && Continued(st.val)
  }

  lemma FlushOk(st: State)
    requires StateOk(st)
    ensures FieldsOk(Flush(st))
  {
    TrimContinued(st.val);
  }

  lemma TrimmedPart(s: string, c: char)
    requires c !in s
    ensures c !in Trim(s)
  {
    hide Trim;
    var _, _ := TrimPlace(s);
  }

  lemma KeyLineOk(line: string)
    requires '\n' !in line && line != [] && !Blank(line[0]) && Find(line, ':') < |line|
    ensures var colon := Find(line, ':');
            var key := Trim(line[..colon]);
            (key == "" || PlainKey(key)) && Continued(Trim(line[colon + 1..]))
  {
    hide Trim;
    var colon := Find(line, ':');
    TrimmedPart(line[..colon], ':');
    TrimmedPart(line[..colon], '\n');
    TrimmedPart(line[colon + 1..], '\n');
  }

  lemma ContinuedLine(v: string, line: string)
    requires Continued(v) && '\n' !in line && line != [] && Blank(line[0])
    ensures Continued(v + "\n" + line)
  {
    var w := v + "\n" + line;
    forall i | 0 <= i < |w| && w[i] == '\n' ensures i + 1 < |w| && Blank(w[i + 1]) {
      assert i <= |v|;
      assert i == |v| ==> w[i + 1] == line[0];
    }
  }

  lemma ReadLineOk(st: State, line: string)
    requires StateOk(st) && '\n' !in line
    ensures StateOk(ReadLine(st, line))
  {
    hide Trim, PlainKey, FieldsOk, Continued, Flush;
    FlushOk(st);
    if line != [] {
      if Blank(line[0]) {
        ContinuedLine(st.val, line);
      } else if Find(line, ':') < |line| {
        KeyLineOk(line);
      }
    }
  }

  lemma {:induction false} ReadLinesOk(st: State, lines: seq<string>)
    requires StateOk(st) && forall l :: l in lines ==> '\n' !in l
    ensures StateOk(ReadLines(st, lines))
    decreases |lines|
  {
    if lines != [] {
      ReadLineOk(st, lines[0]);
      ReadLinesOk(ReadLine(st, lines[0]), lines[1..]);
    }
  }

  /** Parsed fields have plain keys and trimmed values whose further lines are continuations. */
  lemma ParsedFieldsOk(content: string)
    ensures FieldsOk(Parsed(content))
  {
    ReadLinesOk(State(map[], "", ""), Lines(content));
    FlushOk(ReadLines(State(map[], "", ""), Lines(content)));
  }

  // ---------------------------------------------------------------------------
  // Printing
  // ---------------------------------------------------------------------------

  function Stanza(k: string, v: string): string {
    k + ": " + v + "\n"
  }

  /** The fields as `generate_apt_metadata` writes them, in the order `keys`. */
  function Printed(fields: Fields, keys: seq<string>): string
    requires forall k :: k in keys ==> k in fields
  {
    if keys == [] then "" else Stanza(keys[0], fields[keys[0]]) + Printed(fields, keys[1..])
  }

  lemma FirstLine(s: string, i: nat)
    requires i < |s| && s[i] == '\n' && forall j :: 0 <= j < i ==> s[j] != '\n'
    ensures Lines(s) == [StripCr(s[..i])] + Lines(s[i + 1..])
  {
    hide StripCr;
    FindIs(s, '\n', i);
  }

  predicate Whole(line: string) {
    '\n' !in line
  }

  lemma LineThen(first: string, more: string)
    requires Whole(first)
    ensures Lines(first + "\n" + more) == [StripCr(first)] + Lines(more)
  {
    hide Lines, StripCr;
    var text := first + "\n" + more;
    FirstLine(text, |first|);
    assert text[..|first|] == first && text[|first| + 1..] == more;
  }

  lemma SplitAt(w: string, i: nat)
    requires i < |w| && w[i] == '\n'
    ensures w == w[..i] + "\n" + w[i + 1..]
  {
  }

  lemma Regroup(first: string, rest: string)
    ensures first + "\n" + (rest + "\n") == first + "\n" + rest + "\n"
    ensures first + "\n" + "" == first + "\n"
  {
  }

  /** The first line of a text whose last line is ended, and the lines after it. */
  lemma LinesStep(w: string)
    ensures var i := Find(w, '\n');
            Lines(w + "\n") == [StripCr(w[..i])] + (if i < |w| then Lines(w[i + 1..] + "\n") else [])
  {
    hide Lines, StripCr;
    var i := Find(w, '\n');
    assert Whole(w[..i]);
    hide Find, Whole;
    if i < |w| {
      SplitAt(w, i);
      Regroup(w[..i], w[i + 1..]);
      LineThen(w[..i], w[i + 1..] + "\n");
    } else {
      assert w[..i] == w;
      Regroup(w, "");
      LineThen(w, "");
      NothingToRead();
    }
  }

  lemma NothingToRead()
    ensures Lines("") == []
  {
  }

  /** Lines of such a text followed by more text. */
  lemma {:induction false} LinesAppend(a: string, b: string)
    ensures Lines(a + "\n" + b) == Lines(a + "\n") + Lines(b)
    decreases |a|
  {
    hide Find, Lines, StripCr;
    var i := Find(a, '\n');
    var whole := a + "\n" + b;
    assert forall j :: 0 <= j < |a| ==> whole[j] == a[j];
    assert whole[|a|] == '\n';
    FirstLine(whole, i);
    assert whole[..i] == a[..i];
    LinesStep(a);
    if i < |a| {
      assert whole[i + 1..] == a[i + 1..] + "\n" + b;
      LinesAppend(a[i + 1..], b);
    } else {
      assert whole[i + 1..] == b;
    }
  }

  /** What reading back adds to a value for the continuation lines `w`. */
  function Continuations(w: string): (c: string)
    ensures |c| <= |w| + 1
    decreases |w|
  {
    var i := Find(w, '\n');
    "\n" + StripCr(w[..i]) + (if i < |w| then Continuations(w[i + 1..]) else "")
  }

  /** What a printed value is read back as, before the final trim. */
  function Reread(v: string): (r: string)
    ensures |r| <= |v|
  {
    var i := Find(v, '\n');
    Trim(v[..i]) + (if i < |v| then Continuations(v[i + 1..]) else "")
  }

  lemma ReadLinesStep(st: State, line: string, rest: seq<string>)
    ensures ReadLines(st, [line] + rest) == ReadLines(ReadLine(st, line), rest)
  {
    assert ([line] + rest)[1..] == rest;
  }

  lemma ReadsContinuation(st: State, line: string)
    requires line != [] && Blank(line[0])
    ensures StripCr(line) != []
    ensures ReadLine(st, StripCr(line)) == st.(val := st.val + ("\n" + StripCr(line)))
  {
    assert st.val + "\n" + StripCr(line) == st.val + ("\n" + StripCr(line));
  }

  lemma ContinuationsStep(w: string)
    ensures var i := Find(w, '\n');
            Continuations(w) == "\n" + StripCr(w[..i]) + (if i < |w| then Continuations(w[i + 1..]) else "")
  {
  }

  lemma NextContinues(w: string, i: nat)
    requires Continued(w) && i < |w| && w[i] == '\n'
    ensures w[i + 1..] != [] && Blank(w[i + 1..][0]) && Continued(w[i + 1..])
  {
  }

  lemma {:induction false} ReadsContinuations(st: State, w: string)
    requires w != [] && Blank(w[0]) && Continued(w)
    ensures ReadLines(st, Lines(w + "\n")) == st.(val := st.val + Continuations(w))
    decreases |w|
  {
    hide Lines, ReadLines, ReadLine, Continuations, StripCr, Continued;
    LinesStep(w);
    ContinuationsStep(w);
    var i := Find(w, '\n');
    var line := StripCr(w[..i]);
    assert i > 0 && w[..i][0] == w[0];
    ReadsContinuation(st, w[..i]);
    var st1 := st.(val := st.val + ("\n" + line));
    if i == |w| {
      ReadLinesStep(st, line, []);
      NoLines(st1);
      assert [line] + [] == [line];
    } else {
      NextContinues(w, i);
      ReadLinesStep(st, line, Lines(w[i + 1..] + "\n"));
      ReadsContinuations(st1, w[i + 1..]);
      assert st1.val + Continuations(w[i + 1..]) == st.val + Continuations(w);
    }
  }

  lemma NoLines(st: State)
    ensures ReadLines(st, []) == st
  {
  }

  /** Blanks around a text, and a carriage return after it, vanish in a trim. */
  lemma TrimInline(x: string)
    ensures Trim(" " + StripCr(x)) == Trim(x)
  {
    var y := StripCr(x);
    assert (" " + y)[1..] == y;
    assert TrimStart(" " + y) == TrimStart(y);
    if y != x {
      TrimDropsEnd(x);
    }
  }

  lemma {:induction false} TrimDropsEnd(x: string)
    requires x != [] && IsSpace(x[|x| - 1])
    ensures Trim(x[..|x| - 1]) == Trim(x)
    decreases |x|
  {
    var y := x[..|x| - 1];
    if y != [] && IsSpace(y[0]) {
      assert x[1..][..|x| - 2] == y[1..];
      TrimDropsEnd(x[1..]);
    } else if y == [] {
      assert x[1..] == [];
      assert TrimStart(x) == TrimStart(x[1..]);
    } else {
      assert TrimStart(x) == x && TrimStart(y) == y;
    }
  }

  lemma KeyLineParts(k: string, text: string)
    requires ':' !in k
    ensures var line := k + ":" + text;
            Find(line, ':') == |k| && line[..|k|] == k && line[|k| + 1..] == text
  {
    FindIs(k + ":" + text, ':', |k|);
  }

  lemma ReadsKey(st: State, k: string, text: string)
    requires PlainKey(k)
    ensures ReadLine(st, k + ":" + text) == State(Flush(st), k, Trim(text))
  {
    hide Trim, Flush, Find;
    var line := k + ":" + text;
    KeyLineParts(k, text);
    assert line[0] == k[0];
    assert Trim(k) == k;
  }

  lemma StripsText(k: string, first: string)
    ensures StripCr(k + ": " + first) == k + ":" + (" " + StripCr(first))
  {
    assert k + ": " + first == k + ":" + (" " + first);
  }

  /** The key line of a printed stanza. */
  lemma ReadsKeyLine(st: State, k: string, first: string)
    requires PlainKey(k) && '\n' !in first
    ensures ReadLine(st, StripCr(k + ": " + first)) == State(Flush(st), k, Trim(first))
  {
    hide ReadLine, Trim, StripCr, PlainKey, Flush;
    StripsText(k, first);
    ReadsKey(st, k, " " + StripCr(first));
    TrimInline(first);
  }

  lemma BreakAfter(head: string, v: string)
    requires '\n' !in head
    ensures Find(head + v, '\n') == |head| + Find(v, '\n')
  {
    var i := Find(v, '\n');
    if i < |v| {
      FindIs(head + v, '\n', |head| + i);
    } else {
      assert '\n' !in head + v;
    }
  }

  lemma PartsAfter(head: string, v: string, i: nat)
    requires i <= |v|
    ensures (head + v)[..|head| + i] == head + v[..i]
    ensures i < |v| ==> (head + v)[|head| + i + 1..] == v[i + 1..]
  {
  }

  lemma LinesAfter(head: string, v: string)
    requires '\n' !in head
    ensures var i := Find(v, '\n');
            Lines(head + v + "\n")
            == [StripCr(head + v[..i])] + (if i < |v| then Lines(v[i + 1..] + "\n") else [])
  {
    hide Lines, Find, StripCr;
    BreakAfter(head, v);
    LinesStep(head + v);
    PartsAfter(head, v, Find(v, '\n'));
  }

  lemma StanzaLines(k: string, v: string)
    requires PlainKey(k)
    ensures var i := Find(v, '\n');
            Lines(Stanza(k, v))
            == [StripCr(k + ": " + v[..i])] + (if i < |v| then Lines(v[i + 1..] + "\n") else [])
  {
    hide Lines, Find, StripCr;
    LinesAfter(k + ": ", v);
  }

  lemma RereadStep(v: string)
    ensures var i := Find(v, '\n');
            Reread(v) == Trim(v[..i]) + (if i < |v| then Continuations(v[i + 1..]) else "")
  {
  }

  lemma ReadsStanza(st: State, k: string, v: string)
    requires PlainKey(k) && Continued(v)
    ensures ReadLines(st, Lines(Stanza(k, v))) == State(Flush(st), k, Reread(v))
  {
    hide Trim, Lines, ReadLines, ReadLine, Stanza, StripCr, PlainKey, Reread, Continuations, Continued, Flush;
    var i := Find(v, '\n');
    var first := v[..i];
    var line := StripCr(k + ": " + first);
    var st1 := State(Flush(st), k, Trim(first));
    StanzaLines(k, v);
    RereadStep(v);
    ReadsKeyLine(st, k, first);
    if i < |v| {
      NextContinues(v, i);
      ReadLinesStep(st, line, Lines(v[i + 1..] + "\n"));
      ReadsContinuations(st1, v[i + 1..]);
    } else {
      ReadLinesStep(st, line, []);
      NoLines(st1);
      assert Trim(first) + "" == Trim(first);
    }
  }

  /** The printed fields as they are read back. */
  function RereadAll(fields: Fields, keys: seq<string>): (m: Fields)
    requires forall k :: k in keys ==> k in fields
    ensures forall k :: k in m <==> k in keys
    ensures forall k :: k in m ==> m[k] == Trim(Reread(fields[k]))
  {
    if keys == [] then map[] else RereadAll(fields, keys[1..])[keys[0] := Trim(Reread(fields[keys[0]]))]
  }

  /** Reading printed fields replaces each of them by its value as read back. */
  lemma {:induction false} ReadsPrinted(st: State, fields: Fields, keys: seq<string>)
    requires FieldsOk(fields) && forall k :: k in keys ==> k in fields
    ensures Flush(ReadLines(st, Lines(Printed(fields, keys)))) == Flush(st) + RereadAll(fields, keys)
    decreases |keys|
  {
    hide Trim, Reread, Lines, ReadLines, PlainKey, Formed;
    if keys == [] {
      NoLines(st);
      NothingToRead();
    } else {
      var k, rest := keys[0], keys[1..];
      var st1 := State(Flush(st), k, Reread(fields[k]));
      StanzaReads(st, k, fields[k], Printed(fields, rest));
      ReadsPrinted(st1, fields, rest);
      MergesField(Flush(st), RereadAll(fields, rest), k, Trim(Reread(fields[k])));
    }
  }

  lemma MergesField(before: Fields, after: Fields, k: string, v: string)
    requires k in after ==> after[k] == v
    ensures before[k := v] + after == before + after[k := v]
  {
  }

  lemma StanzaReads(st: State, k: string, v: string, more: string)
    requires PlainKey(k) && Formed(v)
    ensures k != ""
    ensures ReadLines(st, Lines(Stanza(k, v) + more))
            == ReadLines(State(Flush(st), k, Reread(v)), Lines(more))
  {
    hide Lines, ReadLines, Reread;
    LinesAppend(k + ": " + v, more);
    ReadLinesAppend(st, Lines(Stanza(k, v)), Lines(more));
    ReadsStanza(st, k, v);
  }

  // ---------------------------------------------------------------------------
  // When the round trip holds
  // ---------------------------------------------------------------------------

  /** No line break is preceded by a carriage return, and the first by no blank of any kind. */
  predicate CleanBreaks(v: string) {
    && (forall j :: 0 < j < |v| && v[j] == '\n' ==> v[j - 1] != '\r')
    && (var i := Find(v, '\n'); 0 < i < |v| ==> !IsSpace(v[i - 1]))
  }

  predicate NoCrBreaks(w: string) {
    forall j :: 0 < j < |w| && w[j] == '\n' ==> w[j - 1] != '\r'
  }

  predicate EndsInCr(line: string) {
    line != [] && line[|line| - 1] == '\r'
  }

  lemma BreakIs(first: string, rest: string)
    requires Whole(first)
    ensures var w := first + "\n" + rest;
            Find(w, '\n') == |first| && w[..|first|] == first && w[|first| + 1..] == rest
  {
    FindIs(first + "\n" + rest, '\n', |first|);
  }

  lemma NoBreak(first: string)
    requires Whole(first)
    ensures Find(first, '\n') == |first| && first[..|first|] == first
  {
  }

  /** A text is one line, or a line and the text after its break. */
  lemma Split(w: string) returns (first: string, rest: string)
    ensures Whole(first)
    ensures first == w || (w == first + "\n" + rest && |rest| < |w| && |first| < |w|)
    ensures first != w ==> (EndsInCr(w) <==> EndsInCr(rest))
  {
    var i := Find(w, '\n');
    first := w[..i];
    rest := if i < |w| then w[i + 1..] else "";
    assert i == |w| ==> first == w;
  }

  lemma BreaksAfter(first: string, rest: string)
    requires Whole(first)
    ensures NoCrBreaks(first + "\n" + rest) <==> NoCrBreaks(rest) && !EndsInCr(first)
  {
    var w, i := first + "\n" + rest, |first|;
    if NoCrBreaks(w) {
      assert w[i] == '\n' && (i > 0 ==> w[i - 1] == first[i - 1]);
      forall j | 0 < j < |rest| && rest[j] == '\n' ensures rest[j - 1] != '\r' {
        assert w[i + 1 + j] == '\n' && w[i + j] == rest[j - 1];
      }
    }
    if NoCrBreaks(rest) && !EndsInCr(first) {
      forall j | 0 < j < |w| && w[j] == '\n' ensures w[j - 1] != '\r' {
        if j > i + 1 {
          assert rest[j - i - 1] == '\n' && w[j - 1] == rest[j - i - 2];
        }
      }
    }
  }

  lemma ContinuationsAfter(first: string, rest: string)
    requires Whole(first)
    ensures Continuations(first + "\n" + rest) == "\n" + StripCr(first) + Continuations(rest)
  {
    hide Find, StripCr;
    BreakIs(first, rest);
  }

  lemma LastContinuation(first: string)
    requires Whole(first)
    ensures Continuations(first) == "\n" + StripCr(first)
  {
    hide Find, StripCr;
    NoBreak(first);
  }

  /** Continuation lines come back as they were exactly if none ends in a carriage return. */
  lemma {:induction false} ContinuationsKept(w: string)
    requires !EndsInCr(w)
    ensures NoCrBreaks(w) ==> Continuations(w) == "\n" + w
    ensures |Continuations(w)| == |w| + 1 ==> NoCrBreaks(w)
    decreases |w|
  {
    hide Continuations, NoCrBreaks;
    var first, rest := Split(w);
    if first == w {
      LastContinuation(w);
      NoBreaksAtAll(w);
    } else {
      ContinuationsKept(rest);
      ContinuationsAfter(first, rest);
      BreaksAfter(first, rest);
    }
  }

  lemma NoBreaksAtAll(w: string)
    requires Whole(w)
    ensures NoCrBreaks(w)
  {
  }

  lemma RereadAfter(first: string, rest: string)
    requires Whole(first)
    ensures Reread(first + "\n" + rest) == Trim(first) + Continuations(rest)
  {
    hide Find, Trim, Continuations;
    BreakIs(first, rest);
  }

  lemma RereadLine(first: string)
    requires Whole(first)
    ensures Reread(first) == Trim(first)
  {
    hide Find, Trim;
    NoBreak(first);
  }

  predicate EndsBlank(line: string) {
    line != [] && IsSpace(line[|line| - 1])
  }

  lemma CleanAfter(first: string, rest: string)
    requires Whole(first)
    ensures CleanBreaks(first + "\n" + rest) <==> NoCrBreaks(rest) && !EndsBlank(first)
  {
    hide Find;
    BreakIs(first, rest);
    BreaksAfter(first, rest);
    assert NoCrBreaks(first + "\n" + rest)
      <==> forall j :: 0 < j < |first + "\n" + rest| && (first + "\n" + rest)[j] == '\n'
                       ==> (first + "\n" + rest)[j - 1] != '\r';
  }

  lemma CleanLine(v: string)
    requires Whole(v)
    ensures CleanBreaks(v)
  {
    NoBreak(v);
  }

  /** The first line of a trimmed value is trimmed at its start. */
  lemma FirstTrimmed(first: string, v: string)
    requires first <= v && Trim(v) == v
    ensures Trim(first) == first <==> !EndsBlank(first)
    ensures |Trim(first)| <= |first| && (|Trim(first)| == |first| ==> Trim(first) == first)
  {
    hide Trim;
    assert first != [] ==> first[0] == v[0];
  }

  /** A value survives printing and reading exactly if its line breaks are clean. */
  lemma ValueKept(v: string)
    requires Formed(v)
    ensures Trim(Reread(v)) == v <==> CleanBreaks(v)
  {
    hide Trim, Reread, CleanBreaks, Continuations, NoCrBreaks, EndsBlank;
    var first, rest := Split(v);
    if first == v {
      RereadLine(v);
      CleanLine(v);
    } else {
      RereadAfter(first, rest);
      CleanAfter(first, rest);
      ContinuationsKept(rest);
      FirstTrimmed(first, v);
    }
  }

  ghost predicate Enumerates(keys: seq<string>, fields: Fields) {
    forall k :: k in keys <==> k in fields
  }

  /**
    Printing parsed fields, in any order, and parsing them again gives the same
    fields exactly if the line breaks of every value are clean.
  */
  lemma RoundTrip(content: string, keys: seq<string>)
    requires Enumerates(keys, Parsed(content))
    ensures var fields := Parsed(content);
            Parsed(Printed(fields, keys)) == fields <==> forall k :: k in fields ==> CleanBreaks(fields[k])
  {
    hide Lines, ReadLines, CleanBreaks, PlainKey, Reread, Trim, Formed;
    var fields := Parsed(content);
    ParsedFieldsOk(content);
    var start := State(map[], "", "");
    ReadsPrinted(start, fields, keys);
    var again := RereadAll(fields, keys);
    assert Flush(start) + again == again;
    forall k | k in fields ensures again[k] == fields[k] <==> CleanBreaks(fields[k]) {
      ValueKept(fields[k]);
    }
  }

  // ---------------------------------------------------------------------------
  // Texts whose lines end in no blank
  // ---------------------------------------------------------------------------

  /** Every line break of a value follows a character that is no blank. */
  predicate TightBreaks(v: string) {
    forall i :: 0 < i < |v| && v[i] == '\n' ==> !IsSpace(v[i - 1])
  }

  predicate TightFields(fields: Fields) {
    forall k :: k in fields ==> TightBreaks(fields[k])
  }

  /** The value being collected either ends in a character that is no blank, or is empty. */
  predicate TightState(st: State) {
    TightFields(st.fields) && TightBreaks(st.val) && !EndsBlank(st.val)
  }

  lemma TightTrim(v: string)
    requires TightBreaks(v)
    ensures TightBreaks(Trim(v)) && !EndsBlank(Trim(v))
  {
    hide Trim;
    var t := Trim(v);
    var lo, hi := TrimPlace(v);
    forall i | 0 < i < |t| && t[i] == '\n' ensures !IsSpace(t[i - 1]) {
      assert v[lo + i] == '\n';
    }
  }

  lemma TightLine(st: State, line: string)
    requires TightState(st) && Whole(line) && !EndsBlank(line)
    ensures TightState(ReadLine(st, line))
  {
    hide Trim;
    TightTrim(st.val);
    if line != [] && Blank(line[0]) {
      var val := st.val + "\n" + line;
      forall i | 0 < i < |val| && val[i] == '\n' ensures !IsSpace(val[i - 1]) {
        assert i <= |st.val|;
      }
    } else if line != [] {
      var colon := Find(line, ':');
      if colon < |line| {
        var after := line[colon + 1..];
        TightTrim(after);
      }
    }
  }

  lemma {:induction false} TightLines(st: State, lines: seq<string>)
    requires TightState(st)
    requires forall l :: l in lines ==> Whole(l) && !EndsBlank(l)
    ensures TightState(ReadLines(st, lines))
    decreases |lines|
  {
    if lines != [] {
      TightLine(st, lines[0]);
      TightLines(ReadLine(st, lines[0]), lines[1..]);
    }
  }

  /** Texts whose lines end in no blank survive: parse, print in any order, parse again. */
  lemma TightTextsSurvive(content: string, keys: seq<string>)
    requires forall l :: l in Lines(content) ==> !EndsBlank(l)
    requires Enumerates(keys, Parsed(content))
    ensures Parsed(Printed(Parsed(content), keys)) == Parsed(content)
  {
    hide ReadLines, Lines, TightBreaks, Trim;
    var start := State(map[], "", "");
    EmptyIsTight();
    TightLines(start, Lines(content));
    var st := ReadLines(start, Lines(content));
    TightTrim(st.val);
    RoundTrip(content, keys);
    forall k | k in Parsed(content) ensures CleanBreaks(Parsed(content)[k]) {
      TightIsClean(Parsed(content)[k]);
    }
  }

  lemma EmptyIsTight()
    ensures TightState(State(map[], "", ""))
  {
  }

  lemma TightIsClean(v: string)
    requires TightBreaks(v)
    ensures CleanBreaks(v)
  {
  }

  /** "A:" and two continuation lines, the first of them ending in a blank. */
  const BLANK_ENDED: seq<string> := ["A:", " b ", " c"]

  lemma OneLine(c: string)
    requires Whole(c) && c != []
    ensures Lines(c) == [c]
  {
    NoBreak(c);
  }

  lemma LineAndRest(a: string, rest: string)
    requires Whole(a) && !EndsInCr(a)
    ensures Lines(a + "\n" + rest) == [a] + Lines(rest)
  {
    hide Lines;
    LineThen(a, rest);
  }

  lemma ReadsBlankEnded()
    ensures ReadLines(State(map[], "", ""), BLANK_ENDED) == State(map[], "A", "\n b \n c")
  {
    hide Lines, ReadLines, Trim, Find;
    var start := State(map[], "", "");
    ReadsKey(start, "A", "");
    assert "A" + ":" + "" == "A:" && Trim("") == "";
    var s1 := State(map[], "A", "");
    var s2 := State(map[], "A", "\n b ");
    assert ReadLine(s1, " b ") == s2;
    var s3 := State(map[], "A", "\n b \n c");
    assert ReadLine(s2, " c") == s3;
    hide ReadLine;
    ReadLinesStep(start, "A:", [" b ", " c"]);
    ReadLinesStep(s1, " b ", [" c"]);
    ReadLinesStep(s2, " c", []);
    NoLines(s3);
    assert BLANK_ENDED == ["A:"] + [" b ", " c"];
    assert [" b "] + [" c"] == [" b ", " c"] && [" c"] + [] == [" c"];
    assert ReadLines(s1, [" b ", " c"]) == ReadLines(s2, [" c"]) == s3;
  }

  lemma TrimDropsStart(x: string)
    requires x != [] && IsSpace(x[0])
    ensures Trim(x) == Trim(x[1..])
  {
  }

  lemma TrimsBlankEnded()
    ensures Trim("\n b \n c") == "b \n c"
  {
    hide Trim;
    var s := "\n b \n c";
    TrimDropsStart(s);
    assert s[1..] == " b \n c";
    TrimDropsStart(" b \n c");
    assert " b \n c"[1..] == "b \n c";
  }

  /** A blank before the first line break of a value is lost, so this text does not survive. */
  lemma BlankEndedIsLost()
    ensures var content := "A:" + "\n" + " b " + "\n" + " c";
            Parsed(content) == map["A" := "b \n c"] && Parsed(Printed(Parsed(content), ["A"])) != Parsed(content)
  {
    hide Lines, ReadLines, Trim, Printed;
    var content := "A:" + "\n" + " b " + "\n" + " c";
    assert content == "A:" + "\n" + (" b " + "\n" + " c");
    LineAndRest("A:", " b " + "\n" + " c");
    LineAndRest(" b ", " c");
    OneLine(" c");
    assert Lines(content) == BLANK_ENDED;
    ReadsBlankEnded();
    TrimsBlankEnded();
    var v := "b \n c";
    assert Flush(State(map[], "A", "\n b \n c")) == map["A" := v];
    FindIs(v, '\n', 2);
    assert !CleanBreaks(v);
    RoundTrip(content, ["A"]);
    assert "A" in Parsed(content);
  }
}
