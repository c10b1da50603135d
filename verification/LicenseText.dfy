/** Policy files as text: scalars, single lines and whole documents are read back as what was written,
    whatever comments and blank lines are added.
  */
module LicenseText {
  import opened Options
  import opened LicenseParser
  import opened LicenseDocuments

  // ---------------------------------------------------------------- scalars

  function DigitChar(n: nat): char
    requires n < 10
  {
    '0' + n as char
  }

  /** The last `width` decimal digits of a number. */
  function Padded(n: nat, width: nat): (s: string)
    ensures |s| == width && forall i :: 0 <= i < |s| ==> IsDigit(s[i])
  {
    if width == 0 then "" else Padded(n / 10, width - 1) + [DigitChar(n % 10)]
  }

  function Power(width: nat): nat {
    if width == 0 then 1 else 10 * Power(width - 1)
  }

  lemma {:induction false} PaddedReads(n: nat, width: nat)
    requires n < Power(width)
    ensures Number(Padded(n, width)) == n
  {
    if width > 0 {
      PaddedReads(n / 10, width - 1);
      var s := Padded(n, width);
      assert s[..|s| - 1] == Padded(n / 10, width - 1);
      assert Digit(s[|s| - 1]) == n % 10;
    }
  }

  /** The days of the calendar. */
  predicate Calendar(year: nat, month: nat, day: nat) {
    && 1 <= year <= 9999 && 1 <= month <= 12 && 1 <= day <= 31
    && (month in {4, 6, 9, 11} ==> day <= 30)
    && (month == 2 ==> day <= 29 && (day == 29 ==> year % 400 == 0 || (year % 4 == 0 && year % 100 != 0)))
  }

  /** How a text is written: as it is, or in quotes. */
  datatype Style = Plain | SingleQuoted | DoubleQuoted
  {
    function Mark(): string {
      match this
      case Plain => ""
      case SingleQuoted => "'"
      case DoubleQuoted => "\""
    }
  }

  function Written(v: Value, q: Style): string {
    match v
    case Text(s) => q.Mark() + s + q.Mark()
    case Flag(b) => if b then "true" else "false"
    case Date(year, month, day) => Padded(year, 4) + "-" + Padded(month, 2) + "-" + Padded(day, 2)
    case NoItems => "[]"
    case NoKeys => "{}"
    case Ref(_) => ""
  }

  predicate IsClean(c: char) {
    c != '#' && c != '"' && c != '\''
  }

  predicate Clean(s: string) {
    forall i :: 0 <= i < |s| ==> IsClean(s[i])
  }

  /** Text that can stand without quotes. */
  predicate PlainText(s: string) {
    Tight(s) && Clean(s) && s !in {"[]", "{}", "true", "false"} && !LooksLikeDate(s)
  }

  /** Text without the quotes it is written in, and dates of the calendar. */
  predicate Writable(v: Value, q: Style) {
    match v
    case Text(s) => if q.Plain? then PlainText(s) else q.Mark()[0] !in s
    case Date(year, month, day) => Calendar(year, month, day)
    case Ref(_) => false
    case _ => true
  }

  predicate Tight(s: string) {
    s != "" && s[0] !in SPACES && s[|s| - 1] !in SPACES
  }

  lemma TightStays(s: string)
    requires Tight(s)
    ensures Strip(s) == s && StripRight(s) == s && StripLeft(s) == s
  {
  }

  /** A blank in front is stripped, and counts. */
  lemma BlankAhead(s: string)
    ensures StripLeft(" " + s) == StripLeft(s) && Indent(" " + s) == 1 + Indent(s)
  {
    var line := " " + s;
    assert line[0] == SPACES[0] && line[1..] == s;
  }

  lemma BlankBehind(s: string)
    ensures StripRight(s + " ") == StripRight(s)
  {
    var line := s + " ";
    assert line[|line| - 1] == SPACES[0] && line[..|line| - 1] == s;
  }

  lemma NothingBehind(s: string)
    requires s == "" || s[|s| - 1] !in SPACES
    ensures StripRight(s) == s
  {
  }

  lemma NothingAhead(s: string)
    requires s == "" || s[0] !in SPACES
    ensures StripLeft(s) == s && Indent(s) == 0
  {
    assert SPACES[0] == ' ';
  }

  lemma {:induction false} BlanksAhead(n: nat, s: string)
    requires s == "" || s[0] !in SPACES
    ensures StripLeft(Blanks(n) + s) == s && Indent(Blanks(n) + s) == n
  {
    if n == 0 {
      assert Blanks(0) + s == s;
      NothingAhead(s);
    } else {
      assert Blanks(n) + s == " " + (Blanks(n - 1) + s);
      BlanksAhead(n - 1, s);
      BlankAhead(Blanks(n - 1) + s);
    }
  }

  lemma BlanksStrip(n: nat, s: string)
    requires Tight(s)
    ensures Strip(Blanks(n) + s) == s && StripLeft(Blanks(n) + s) == s && StripRight(Blanks(n) + s) == Blanks(n) + s
    ensures Indent(Blanks(n) + s) == n
  {
    var line := Blanks(n) + s;
    assert line[|line| - 1] == s[|s| - 1];
    NothingBehind(line);
    BlanksAhead(n, s);
  }

  function Blanks(n: nat): (s: string)
    ensures |s| == n && forall i :: 0 <= i < n ==> s[i] == ' '
  {
    if n == 0 then "" else " " + Blanks(n - 1)
  }

  lemma NoSpace(c: char)
    requires '!' <= c <= '~'
    ensures c !in SPACES
  {
  }

  lemma MarksAreNoSpaces(q: Style)
    requires !q.Plain?
    ensures |q.Mark()| == 1 && q.Mark()[0] !in SPACES
  {
    NoSpace(q.Mark()[0]);
  }

  lemma TextTight(t: string, q: Style)
    requires Writable(Text(t), q)
    ensures Tight(Written(Text(t), q))
  {
    if q.Plain? {
      assert "" + t + "" == t;
    } else {
      MarksAreNoSpaces(q);
      var s := Written(Text(t), q);
      assert s[0] == q.Mark()[0] && s[|s| - 1] == q.Mark()[0];
    }
  }

  lemma DateTight(year: nat, month: nat, day: nat)
    ensures Tight(Written(Date(year, month, day), Plain))
  {
    var s := Written(Date(year, month, day), Plain);
    DateShape(Padded(year, 4), Padded(month, 2), Padded(day, 2));
    NoSpace(s[0]);
    NoSpace(s[9]);
  }

  lemma WrittenTight(v: Value, q: Style)
    requires Writable(v, q)
    ensures Tight(Written(v, q))
  {
    match v
    case Text(t) => TextTight(t, q);
    case Date(year, month, day) => DateTight(year, month, day);
    case _ =>
      NoSpace('t');
      NoSpace('f');
      NoSpace('e');
      NoSpace('[');
      NoSpace(']');
      NoSpace('{');
      NoSpace('}');
  }

  lemma DateShape(y: string, m: string, d: string)
    requires |y| == 4 && |m| == 2 && |d| == 2
    requires (forall i :: 0 <= i < 4 ==> IsDigit(y[i])) && (forall i :: 0 <= i < 2 ==> IsDigit(m[i]) && IsDigit(d[i]))
    ensures var s := y + "-" + m + "-" + d;
            && |s| == 10 && LooksLikeDate(s) && s[..4] == y && s[5..7] == m && s[8..] == d
            && IsDigit(s[0]) && IsDigit(s[9])
  {
    var s := y + "-" + m + "-" + d;
    assert s[4] == '-' && s[7] == '-';
    assert s[0] == y[0] && s[1] == y[1] && s[2] == y[2] && s[3] == y[3];
    assert s[5] == m[0] && s[6] == m[1] && s[8] == d[0] && s[9] == d[1];
    forall i | 0 <= i < 10
      ensures if i == 4 || i == 7 then s[i] == '-' else IsDigit(s[i])
    {
      assert i in {0, 1, 2, 3, 4, 5, 6, 7, 8, 9};
    }
  }

  lemma Powers()
    ensures Power(2) == 100 && Power(4) == 10000
  {
    assert Power(1) == 10 && Power(3) == 1000;
  }

  lemma DateOf(y: string, m: string, d: string, year: nat, month: nat, day: nat)
    requires |y| == 4 && |m| == 2 && |d| == 2
    requires (forall i :: 0 <= i < 4 ==> IsDigit(y[i])) && (forall i :: 0 <= i < 2 ==> IsDigit(m[i]) && IsDigit(d[i]))
    requires Number(y) == year && Number(m) == month && Number(d) == day && Calendar(year, month, day)
    ensures LooksLikeDate(y + "-" + m + "-" + d) && AsDate(y + "-" + m + "-" + d) == Some(Date(year, month, day))
  {
    DateShape(y, m, d);
    var s := y + "-" + m + "-" + d;
    assert Number(s[..4]) == year && Number(s[5..7]) == month && Number(s[8..]) == day;
    DatesOfTheCalendar(s);
    DateFields(s);
  }

  lemma DateFields(s: string)
    requires LooksLikeDate(s) && AsDate(s).Some?
    ensures AsDate(s).value == Date(Number(s[..4]), Number(s[5..7]), Number(s[8..]))
  {
  }

  lemma DateReads(year: nat, month: nat, day: nat)
    requires Calendar(year, month, day)
    ensures LooksLikeDate(Written(Date(year, month, day), Plain))
    ensures AsDate(Written(Date(year, month, day), Plain)) == Some(Date(year, month, day))
  {
    var four, two := 4, 2;
    Powers();
    PaddedReads(year, four);
    PaddedReads(month, two);
    PaddedReads(day, two);
    DateOf(Padded(year, four), Padded(month, two), Padded(day, two), year, month, day);
  }

  lemma TextReads(t: string, q: Style)
    requires Writable(Text(t), q)
    ensures Tight(Written(Text(t), q)) && Scalar(Written(Text(t), q)) == Some(Text(t))
  {
    var s := Written(Text(t), q);
    TextTight(t, q);
    TightStays(s);
    if q.Plain? {
      assert s == t;
      assert IsClean(t[0]);
    } else {
      assert s[1..|s| - 1] == t && IsQuote(s[0]) && s[|s| - 1] == s[0];
    }
  }

  lemma DateScalar(year: nat, month: nat, day: nat)
    requires Calendar(year, month, day)
    ensures Scalar(Written(Date(year, month, day), Plain)) == Some(Date(year, month, day))
  {
    var s := Written(Date(year, month, day), Plain);
    DateReads(year, month, day);
    DateTight(year, month, day);
    TightStays(s);
    assert |s| == 10 && IsDigit(s[0]);
  }

  lemma ValueReads(v: Value, q: Style)
    requires Writable(v, q)
    ensures Scalar(Written(v, q)) == Some(v)
  {
    WrittenTight(v, q);
    TightStays(Written(v, q));
    match v
    case Text(t) => TextReads(t, q);
    case Date(year, month, day) => DateScalar(year, month, day);
    case _ =>
  }

  /** Every writable value is read back, whatever blanks stand before it. */
  lemma ScalarRoundTrip(v: Value, q: Style, n: nat)
    requires Writable(v, q)
    ensures Scalar(Blanks(n) + Written(v, q)) == Some(v)
  {
    WrittenTight(v, q);
    BlanksStrip(n, Written(v, q));
    TightStays(Written(v, q));
    ValueReads(v, q);
    SameScalar(Blanks(n) + Written(v, q), Written(v, q));
  }

  lemma SameScalar(a: string, b: string)
    requires Strip(a) == Strip(b)
    ensures Scalar(a) == Scalar(b)
  {
  }

  /** Something that looks like a date is one exactly if the calendar has it. */
  lemma DatesOfTheCalendar(s: string)
    requires LooksLikeDate(s)
    ensures AsDate(s).Some? <==> Calendar(Number(s[..4]), Number(s[5..7]), Number(s[8..]))
  {
    NumberBound(s[..4]);
    Powers();
  }

  lemma {:induction false} NumberBound(s: string)
    requires forall i :: 0 <= i < |s| ==> IsDigit(s[i])
    ensures Number(s) < Power(|s|)
  {
    if s != "" { NumberBound(s[..|s| - 1]); }
  }

  // ---------------------------------------------------------------- single lines

  /** A key that needs no quotes. */
  predicate PlainKey(key: string) {
    Tight(key) && key[0] != '-' && forall c :: c in key ==> c != ':' && IsClean(c)
  }

  /** A line that a document is written with: a key with a value or opening a container, or an item. */
  predicate LineOk(line: Line, q: Style) {
    && (line.key.Some? ==> PlainKey(line.key.value))
    && if line.key.Some? && line.blank then line == Header(line.indent, line.key.value)
       else
         && !line.blank && line.value.Some? && Writable(line.value.value, q) && (line.key.None? ==> line.item)
         && (line.key.None? ==> ':' !in Written(line.value.value, q))
  }

  /** The quotes of a line, and the blanks before and after its colon. */
  datatype Layout = Layout(q: Style, gap: nat, lead: nat)

  /** What stands behind the indent and the dash. */
  function Body(line: Line, l: Layout): string
    requires LineOk(line, l.q)
  {
    if line.key.None? then Written(line.value.value, l.q)
    else line.key.value + Blanks(l.gap) + ":" + (if line.blank then "" else Blanks(l.lead) + Written(line.value.value, l.q))
  }

  function Dash(line: Line): string {
    if line.item then "- " else ""
  }

  function WrittenLine(line: Line, l: Layout): string
    requires LineOk(line, l.q)
  {
    Blanks(line.indent) + (Dash(line) + Body(line, l))
  }

  lemma BodyTight(line: Line, l: Layout)
    requires LineOk(line, l.q)
    ensures Tight(Body(line, l)) && Tight(Dash(line) + Body(line, l))
    ensures !line.item ==> !("- " <= Body(line, l))
  {
    if line.value.Some? && !line.blank { WrittenTight(line.value.value, l.q); }
    NoSpace(':');
    NoSpace('-');
    var body := Body(line, l);
    if line.key.Some? {
      assert body[0] == line.key.value[0];
      if line.blank {
        assert body[|body| - 1] == ':';
      } else {
        var w := Written(line.value.value, l.q);
        assert body[|body| - 1] == w[|w| - 1];
      }
    }
    var whole := Dash(line) + body;
    assert whole[|whole| - 1] == body[|body| - 1];
  }

  lemma {:induction false} ColonAt(key: string, rest: string)
    requires ':' !in key
    ensures IndexOf(key + ":" + rest, ':') == |key|
  {
    var s := key + ":" + rest;
    assert s[|key|] == ':';
    assert forall i :: 0 <= i < |key| ==> s[i] == key[i];
  }

  lemma {:induction false} NoColon(s: string)
    requires ':' !in s
    ensures IndexOf(s, ':') == |s|
  {
  }

  lemma StrippedLine(line: Line, l: Layout)
    requires LineOk(line, l.q)
    ensures var raw := WrittenLine(line, l);
            && Strip(raw) == Dash(line) + Body(line, l) && Strip(raw) != "" && Indent(raw) == line.indent
            && IsItem(raw) == line.item && Body(line, l) == (if line.item then Strip(Strip(raw)[2..]) else Strip(raw))
  {
    var body := Body(line, l);
    BodyTight(line, l);
    BlanksStrip(line.indent, Dash(line) + body);
    TightStays(body);
    if line.item {
      assert (Dash(line) + body)[2..] == body;
    } else {
      assert Dash(line) + body == body;
    }
  }

  /** A written line is read back. */
  lemma LineRoundTrip(line: Line, l: Layout)
    requires LineOk(line, l.q)
    ensures Read(WrittenLine(line, l)) == line && Strip(WrittenLine(line, l)) != ""
  {
    StrippedLine(line, l);
    BodyRead(line, l);
    ReadAgain(WrittenLine(line, l), Body(line, l), line);
  }

  lemma ReadAgain(raw: string, text: string, line: Line)
    requires Indent(raw) == line.indent && IsItem(raw) == line.item
    requires text == if line.item then Strip(Strip(raw)[2..]) else Strip(raw)
    requires line.key.None? ==> line.item
    requires BodyMeans(text, line)
    ensures Read(raw) == line
  {
    var n := IndexOf(text, ':');
    if line.key.Some? {
      KeyedLine(raw, text, n, Scalar(text[n + 1..]));
    } else {
      BareItem(raw, text, Scalar(text));
    }
  }

  lemma KeyedLine(raw: string, text: string, n: nat, value: Option<Value>)
    requires text == (if IsItem(raw) then Strip(Strip(raw)[2..]) else Strip(raw)) && n == IndexOf(text, ':') < |text|
    requires value == Scalar(text[n + 1..])
    ensures Read(raw) == Line(Indent(raw), IsItem(raw), Some(Strip(text[..n])), Strip(text[n + 1..]) == "", value)
  {
  }

  lemma BareItem(raw: string, text: string, value: Option<Value>)
    requires IsItem(raw) && text == Strip(Strip(raw)[2..]) && IndexOf(text, ':') == |text| && value == Scalar(text)
    ensures Read(raw) == Line(Indent(raw), true, None, false, value)
  {
  }

  /** What the line reads from the text behind its indent and dash. */
  predicate BodyMeans(text: string, line: Line) {
    var n := IndexOf(text, ':');
    if line.key.Some? then
      n < |text| && Strip(text[..n]) == line.key.value
      && (Strip(text[n + 1..]) == "" <==> line.blank) && Scalar(text[n + 1..]) == line.value
    else n == |text| && Scalar(text) == line.value && line.blank == false
  }

  lemma BodyRead(line: Line, l: Layout)
    requires LineOk(line, l.q)
    ensures BodyMeans(Body(line, l), line)
  {
    if line.key.None? {
      NoColon(Body(line, l));
      ValueReads(line.value.value, l.q);
    } else if line.blank {
      KeyedText(line.key.value, l.gap, "");
    } else {
      KeyedText(line.key.value, l.gap, Blanks(l.lead) + Written(line.value.value, l.q));
      ScalarRoundTrip(line.value.value, l.q, l.lead);
      WrittenTight(line.value.value, l.q);
      BlanksStrip(l.lead, Written(line.value.value, l.q));
    }
  }

  lemma KeyedText(key: string, gap: nat, rest: string)
    requires PlainKey(key)
    ensures var text := key + Blanks(gap) + ":" + rest;
            var n := IndexOf(text, ':');
            n < |text| && Strip(text[..n]) == key && text[n + 1..] == rest
  {
    ColonAt(key + Blanks(gap), rest);
    KeyStrips(key, gap);
    var text := key + Blanks(gap) + ":" + rest;
    assert text[..|key| + gap] == key + Blanks(gap) && text[|key| + gap + 1..] == rest;
  }

  lemma KeyStrips(key: string, gap: nat)
    requires Tight(key)
    ensures Strip(key + Blanks(gap)) == key
  {
    BlanksDrop(key, gap);
    TightStays(key);
  }

  // ---------------------------------------------------------------- comments

  /** No comment starts in the text, and its quotes are closed. */
  predicate Closed(s: string) {
    Quoting(s).Outside? && forall i :: 0 <= i < |s| ==> !Comment(s, i)
  }

  lemma {:induction false} QuotingAfter(a: string, b: string)
    requires Quoting(a).Outside?
    ensures Quoting(a + b) == Quoting(b)
  {
    if b == "" {
      assert a + b == a;
    } else {
      assert (a + b)[..|a + b| - 1] == a + b[..|b| - 1];
      QuotingAfter(a, b[..|b| - 1]);
    }
  }

  lemma ClosedAppend(a: string, b: string)
    requires Closed(a) && Closed(b)
    ensures Closed(a + b)
  {
    QuotingAfter(a, b);
    forall i | 0 <= i < |a + b|
      ensures !Comment(a + b, i)
    {
      if i < |a| {
        assert (a + b)[..i] == a[..i] && !Comment(a, i);
      } else {
        assert (a + b)[..i] == a + b[..i - |a|] && !Comment(b, i - |a|);
        QuotingAfter(a, b[..i - |a|]);
      }
    }
  }

  lemma {:induction false} CleanQuoting(s: string)
    requires Clean(s)
    ensures Quoting(s).Outside?
  {
    if s != "" { CleanQuoting(s[..|s| - 1]); }
  }

  lemma CleanIsClosed(s: string)
    requires Clean(s)
    ensures Closed(s)
  {
    CleanQuoting(s);
    forall i | 0 <= i < |s|
      ensures !Comment(s, i)
    {
      assert IsClean(s[i]);
    }
  }

  lemma {:induction false} InsideQuotes(s: string, q: Style)
    requires !q.Plain? && q.Mark()[0] !in s
    ensures Quoting(q.Mark() + s) == if q.DoubleQuoted? then InDouble else InSingle
  {
    var m := q.Mark();
    if s == "" {
      assert m + s == m && m[..0] == "";
    } else {
      assert (m + s)[..|s|] == m + s[..|s| - 1];
      InsideQuotes(s[..|s| - 1], q);
    }
  }

  /** In quotes everything but that quote is plain text. */
  lemma QuotedIsClosed(s: string, q: Style)
    requires !q.Plain? && q.Mark()[0] !in s
    ensures Closed(q.Mark() + s + q.Mark())
  {
    var m := q.Mark();
    var quoted := m + s + m;
    InsideQuotes(s, q);
    assert quoted[..|quoted| - 1] == m + s;
    forall i | 0 <= i < |quoted|
      ensures !Comment(quoted, i)
    {
      if 0 < i <= |s| {
        InsideQuotes(s[..i - 1], q);
        assert quoted[..i] == m + s[..i - 1];
      }
    }
  }

  lemma WrittenIsClosed(v: Value, q: Style)
    requires Writable(v, q)
    ensures Closed(Written(v, q))
  {
    if v.Text? && !q.Plain? {
      QuotedIsClosed(v.s, q);
    } else if v.Text? {
      assert "" + v.s + "" == v.s;
      CleanIsClosed(v.s);
    } else {
      if v.Date? {
        forall i | 0 <= i < |Written(v, q)|
          ensures IsClean(Written(v, q)[i])
        {
          DateShape(Padded(v.year, 4), Padded(v.month, 2), Padded(v.day, 2));
        }
      }
      CleanIsClosed(Written(v, q));
    }
  }

  lemma LineIsClosed(line: Line, l: Layout)
    requires LineOk(line, l.q)
    ensures Closed(WrittenLine(line, l))
  {
    CleanIsClosed(Blanks(line.indent));
    CleanIsClosed(Dash(line));
    BodyIsClosed(line, l);
    ClosedAppend(Dash(line), Body(line, l));
    ClosedAppend(Blanks(line.indent), Dash(line) + Body(line, l));
  }

  lemma BodyIsClosed(line: Line, l: Layout)
    requires LineOk(line, l.q)
    ensures Closed(Body(line, l))
  {
    if line.value.Some? && !line.blank { WrittenIsClosed(line.value.value, l.q); }
    if line.key.Some? {
      var key := line.key.value + Blanks(l.gap) + ":";
      CleanIsClosed(key);
      if line.blank {
        assert key + "" == key;
      } else {
        CleanIsClosed(Blanks(l.lead));
        ClosedAppend(Blanks(l.lead), Written(line.value.value, l.q));
        ClosedAppend(key, Blanks(l.lead) + Written(line.value.value, l.q));
      }
    }
  }

  /** Blanks, and then nothing or a comment. */
  predicate IsTail(tail: string, n: nat) {
    n <= |tail| && tail[..n] == Blanks(n) && (n < |tail| ==> tail[n] == '#')
  }

  lemma {:induction false} BlanksDrop(s: string, n: nat)
    ensures StripRight(s + Blanks(n)) == StripRight(s)
  {
    if n == 0 {
      assert s + Blanks(0) == s;
    } else {
      BlanksDrop(s, n - 1);
      BlankBehind(s + Blanks(n - 1));
      BlanksEnd(s, n - 1);
    }
  }

  lemma BlanksEnd(s: string, n: nat)
    ensures s + Blanks(n + 1) == s + Blanks(n) + " "
  {
  }

  lemma ClosedIsCut(line: string, at: nat)
    requires at <= |line| && Closed(line[..at]) && (at < |line| ==> line[at] == '#')
    ensures Uncommented(line) == StripRight(line[..at])
  {
    forall i | 0 <= i < at
      ensures !Comment(line, i)
    {
      assert line[..at][i] == line[i] && line[..at][..i] == line[..i] && !Comment(line[..at], i);
    }
    FirstComment(line, at);
  }

  /** A comment behind closed text, and the blanks before it, are cut off. */
  lemma TailIsCut(s: string, tail: string, n: nat)
    requires Closed(s) && IsTail(tail, n) && (s == "" || s[|s| - 1] !in SPACES)
    ensures Uncommented(s + tail) == s
  {
    CleanIsClosed(Blanks(n));
    ClosedAppend(s, Blanks(n));
    assert (s + tail)[..|s| + n] == s + Blanks(n);
    ClosedIsCut(s + tail, |s| + n);
    BlanksDrop(s, n);
    NothingBehind(s);
  }

  // ---------------------------------------------------------------- whole files

  /** Nothing but blanks and a comment. */
  ghost predicate SpellsNothing(raw: string) {
    exists n :: IsTail(raw, n)
  }

  /** The line, written out, with blanks and a comment behind it. */
  ghost predicate SpellsLine(raw: string, line: Line) {
    exists l: Layout, tail, n :: LineOk(line, l.q) && IsTail(tail, n) && raw == WrittenLine(line, l) + tail
  }

  /** What each raw line is to say: a line, or nothing. */
  type Plan = seq<Option<Line>>

  function Planned(plan: Plan): seq<Line> {
    if plan == [] then []
    else Planned(plan[..|plan| - 1]) + (if plan[|plan| - 1].Some? then [plan[|plan| - 1].value] else [])
  }

  ghost predicate SpellsOne(raw: string, part: Option<Line>) {
    if part.Some? then SpellsLine(raw, part.value) else SpellsNothing(raw)
  }

  /** The text spells the lines of the plan: each written out, with any comment behind it, and blanks and
      comments in between. */
  ghost predicate Spells(text: seq<string>, plan: Plan) {
    |text| == |plan| && forall i :: 0 <= i < |text| ==> SpellsOne(text[i], plan[i])
  }

  lemma PrefixGrows<T>(s: seq<T>, n: nat)
    requires n < |s|
    ensures s[..n + 1] == s[..n] + [s[n]]
  {
  }

  lemma {:induction false} SpelledPrefix(text: seq<string>, plan: Plan, n: nat)
    requires Spells(text, plan) && n <= |text|
    ensures Kept(text[..n]) == Planned(plan[..n])
  {
    if n > 0 {
      SpelledPrefix(text, plan, n - 1);
      PrefixGrows(text, n - 1);
      PrefixGrows(plan, n - 1);
      SpelledPush(text[..n - 1], plan[..n - 1], text[n - 1], plan[n - 1]);
    }
  }

  /** The lines of the text are the ones it spells. */
  lemma SpelledLines(text: seq<string>, plan: Plan)
    requires Spells(text, plan)
    ensures Kept(text) == Planned(plan)
  {
    SpelledPrefix(text, plan, |text|);
    assert text[..|text|] == text && plan[..|text|] == plan;
  }

  lemma SpelledPush(text: seq<string>, plan: Plan, raw: string, part: Option<Line>)
    requires Kept(text) == Planned(plan) && SpellsOne(raw, part)
    ensures Kept(text + [raw]) == Planned(plan + [part])
  {
    assert (plan + [part])[..|plan|] == plan;
    if part.Some? { LineKept(text, raw, part.value); } else { NothingKept(text, raw); }
  }

  lemma NothingKept(text: seq<string>, raw: string)
    requires SpellsNothing(raw)
    ensures Kept(text + [raw]) == Kept(text)
  {
    EmptyLine(raw);
    KeptPush(text, raw);
  }

  lemma LineKept(text: seq<string>, raw: string, line: Line)
    requires SpellsLine(raw, line)
    ensures Kept(text + [raw]) == Kept(text) + [line]
  {
    SpelledLine(raw, line);
    KeptPush(text, raw);
  }

  lemma KeptPush(text: seq<string>, raw: string)
    ensures Strip(Uncommented(raw)) == "" ==> Kept(text + [raw]) == Kept(text)
    ensures Strip(Uncommented(raw)) != "" ==> Kept(text + [raw]) == Kept(text) + [Read(Uncommented(raw))]
  {
    assert (text + [raw])[..|text|] == text;
  }

  lemma SpelledLine(raw: string, line: Line)
    requires SpellsLine(raw, line)
    ensures Read(Uncommented(raw)) == line && Strip(Uncommented(raw)) != ""
  {
    var l: Layout, tail, n :| LineOk(line, l.q) && IsTail(tail, n) && raw == WrittenLine(line, l) + tail;
    LineIsClosed(line, l);
    BodyTight(line, l);
    EndsTight(line, l);
    TailIsCut(WrittenLine(line, l), tail, n);
    LineRoundTrip(line, l);
  }

  lemma EmptyLine(raw: string)
    requires SpellsNothing(raw)
    ensures Strip(Uncommented(raw)) == ""
  {
    var n :| IsTail(raw, n);
    CleanIsClosed("");
    assert "" + raw == raw;
    TailIsCut("", raw, n);
  }

  lemma EndsTight(line: Line, l: Layout)
    requires LineOk(line, l.q) && Tight(Dash(line) + Body(line, l))
    ensures WrittenLine(line, l) != "" && WrittenLine(line, l)[|WrittenLine(line, l)| - 1] !in SPACES
  {
    var s := Dash(line) + Body(line, l);
    assert WrittenLine(line, l)[|WrittenLine(line, l)| - 1] == s[|s| - 1];
  }

  /** A file that spells a document is parsed without a fault, and means that document. */
  lemma FileMeansDocument(text: seq<string>, plan: Plan, entries: seq<Entry>, r: Parse)
    requires EntriesOk(entries) && entries != [] && Spells(text, plan) && Planned(plan) == EntriesLines(entries, 0)
    requires Right(Kept(text), r)
    ensures var lines := EntriesLines(entries, 0);
            && r.Parsed? && -1 in r.nodes && r.nodes[-1].Entries?
            && MeansEntries(lines, r.nodes[-1].entries, entries)
            && forall c :: c in r.nodes ==> -1 <= c < |lines| && r.nodes[c] == Final(lines, c)
  {
    SpelledLines(text, plan);
    DocumentIsRead(entries, r);
  }

  // ---------------------------------------------------------------- written documents

  /** Without quotes where that can be read, else in those that the text does not hold. */
  function StyleOf(v: Value): Style {
    if !v.Text? || PlainText(v.s) then Plain else if '"' !in v.s then DoubleQuoted else SingleQuoted
  }

  function LineLayout(line: Line): Layout {
    Layout(if line.value.Some? then StyleOf(line.value.value) else Plain, 0, 1)
  }

  predicate CanBeWritten(v: Value) {
    Writable(v, StyleOf(v))
  }

  /** Keys that need no quotes, and values that can be written. */
  predicate DocWritable(doc: Doc)
    decreases doc, 0
  {
    match doc
    case Leaf(value) => CanBeWritten(value)
    case Dict(entries) => EntriesWritable(entries)
    case Listing(items) => ItemsWritable(items)
  }

  predicate EntriesWritable(entries: seq<Entry>)
    decreases entries, 1
  {
    entries == []
    || var n := |entries| - 1;
       EntriesWritable(entries[..n]) && PlainKey(entries[n].key) && DocWritable(entries[n].doc)
  }

  predicate ItemsWritable(items: seq<Item>)
    decreases items, 1
  {
    items == []
    || var n := |items| - 1;
       && ItemsWritable(items[..n])
       && match items[n]
          case Single(value) => CanBeWritten(value) && ':' !in Written(value, StyleOf(value))
          case Record(key, value, more) => PlainKey(key) && CanBeWritten(value) && EntriesWritable(more)
  }

  predicate LinesOk(lines: seq<Line>) {
    forall i :: 0 <= i < |lines| ==> LineOk(lines[i], LineLayout(lines[i]).q)
  }

  lemma {:induction false} EntriesLinesOk(entries: seq<Entry>, indent: nat)
    requires EntriesWritable(entries)
    ensures LinesOk(EntriesLines(entries, indent))
    decreases entries, 1
  {
    if entries != [] {
      var n := |entries| - 1;
      EntriesLinesOk(entries[..n], indent);
      EntryLinesOk(entries[n], indent);
    }
  }

  lemma {:induction false} EntryLinesOk(e: Entry, indent: nat)
    requires PlainKey(e.key) && DocWritable(e.doc)
    ensures LinesOk(EntryLines(e, indent))
    decreases e, 0
  {
    match e.doc
    case Leaf(_) =>
    case Dict(entries) => EntriesLinesOk(entries, indent + 2);
    case Listing(items) => ItemsLinesOk(items, indent + 2);
  }

  lemma {:induction false} ItemsLinesOk(items: seq<Item>, indent: nat)
    requires ItemsWritable(items)
    ensures LinesOk(ItemsLines(items, indent))
    decreases items, 1
  {
    if items != [] {
      var n := |items| - 1;
      ItemsLinesOk(items[..n], indent);
      if items[n].Record? { EntriesLinesOk(items[n].more, indent + 2); }
    }
  }

  function WrittenLines(lines: seq<Line>): seq<string>
    requires LinesOk(lines)
  {
    seq(|lines|, i requires 0 <= i < |lines| => WrittenLine(lines[i], LineLayout(lines[i])))
  }

  function PlanOf(lines: seq<Line>): Plan {
    seq(|lines|, i requires 0 <= i < |lines| => Some(lines[i]))
  }

  lemma {:induction false} PlannedLines(lines: seq<Line>)
    ensures Planned(PlanOf(lines)) == lines
  {
    if lines != [] {
      var n := |lines| - 1;
      PlannedLines(lines[..n]);
      assert PlanOf(lines)[..n] == PlanOf(lines[..n]);
    }
  }

  lemma WrittenLinesSpell(lines: seq<Line>)
    requires LinesOk(lines)
    ensures Spells(WrittenLines(lines), PlanOf(lines))
  {
    forall i | 0 <= i < |lines|
      ensures SpellsOne(WrittenLines(lines)[i], PlanOf(lines)[i])
    {
      var l := LineLayout(lines[i]);
      assert LineOk(lines[i], l.q) && IsTail("", 0) && WrittenLines(lines)[i] == WrittenLine(lines[i], l) + "";
    }
  }

  /** Round trip: a document that is written as a file and parsed means itself. */
  lemma DocumentRoundTrip(entries: seq<Entry>, r: Parse)
    requires EntriesOk(entries) && entries != [] && EntriesWritable(entries)
    ensures LinesOk(EntriesLines(entries, 0))
    ensures Right(Kept(WrittenLines(EntriesLines(entries, 0))), r) ==>
              r.Parsed? && -1 in r.nodes && r.nodes[-1].Entries?
              && MeansEntries(EntriesLines(entries, 0), r.nodes[-1].entries, entries)
  {
    EntriesLinesOk(entries, 0);
    WrittenLinesSpell(EntriesLines(entries, 0));
    if Right(Kept(WrittenLines(EntriesLines(entries, 0))), r) {
      PlannedLines(EntriesLines(entries, 0));
      FileMeansDocument(WrittenLines(EntriesLines(entries, 0)), PlanOf(EntriesLines(entries, 0)), entries, r);
    }
  }
}
