/**
 * The configuration scanner, over one line already read into its
 * 128-character buffer: skipping blanks, keywords, quoted strings,
 * integers, keyword tables, and the parameters of a display connection.
 * Diagnostics are kept in order: `Expected` is only printed by the
 * source, every other message is an Error, which also asks the scheduler
 * to shut down.
 */
module ConfigScanner {
  import opened SensorTypes
  import ProcessSensors
  import opened Entities

  const MaxCol: int := 128

  predicate IsDigit(c: char) { '0' <= c <= '9' }

  predicate IsAlnum(c: char) { 'a' <= c <= 'z' || 'A' <= c <= 'Z' || IsDigit(c) }

  predicate IsWordChar(c: char) { IsAlnum(c) || c == '_' }

  predicate IsBlank(c: char) { c == ' ' || c == '\t' }

  /** The characters a token can start with. */
  predicate IsTokenStart(c: char)
  {
    c == ':' || c == ',' || c == ';' || c == '{' || c == '}' ||
    c == '(' || c == ')' || c == '"' || IsWordChar(c)
  }

  datatype Message =
    | Expected(c: char)
    | UnexpectedEnd
    | IllegalCharacter
    | MissingQuote
    | IntegerExpected
    | NumericIndexExpected
    | UnknownValueIndex
    | ValueIndexExpected

  // ---------------------------------------------------------------------
  // The scanning steps as functions of the buffer
  // ---------------------------------------------------------------------

  /** The first column at or after `c` that is not a blank. */
  function SkipBlanks(b: seq<char>, c: int): (d: int)
    requires 0 <= c <= |b|
    ensures c <= d <= |b|
    ensures forall k | c <= k < d :: IsBlank(b[k])
    ensures d == |b| || !IsBlank(b[d])
    decreases |b| - c
  {
    if c == |b| || !IsBlank(b[c]) then c else SkipBlanks(b, c + 1)
  }

  /**
   * What skipping reports when it stops at `d`: nothing before a token; at
   * the end of the line or a comment the next line would be read, and with
   * one line there is none; any other character is illegal.
   */
  function SkipReport(b: seq<char>, d: int): (m: seq<Message>)
    requires 0 <= d <= |b|
    ensures m == [] <==> d < |b| && IsTokenStart(b[d])
    ensures |m| <= 1 && (m == [] || m == [UnexpectedEnd] || m == [IllegalCharacter])
  {
    if d < |b| && IsTokenStart(b[d]) then []
    else if d == |b| || b[d] == '\n' || b[d] == '\0' || (b[d] == '/' && d + 1 < |b| && b[d + 1] == '/')
    then [UnexpectedEnd]
    else [IllegalCharacter]
  }

  /** What GetChar reports when skipping stops at `d`. */
  function CharReport(b: seq<char>, d: int, c: char): (m: seq<Message>)
    requires 0 <= d <= |b|
    ensures Expected(c) in m <==> !(d < |b| && b[d] == c)
    ensures forall x | x in m :: x == Expected(c) || x == UnexpectedEnd || x == IllegalCharacter
  {
    SkipReport(b, d) + if d < |b| && b[d] == c then [] else [Expected(c)]
  }

  /** The end of the word starting at `c`. */
  function WordEnd(b: seq<char>, c: int): (e: int)
    requires 0 <= c <= |b|
    ensures c <= e <= |b|
    ensures forall k | c <= k < e :: IsWordChar(b[k])
    ensures e == |b| || !IsWordChar(b[e])
    decreases |b| - c
  {
    if c == |b| || !IsWordChar(b[c]) then c else WordEnd(b, c + 1)
  }

  /** The end of a string body starting at `c`: the next quote or newline, or the buffer's end. */
  function StringEnd(b: seq<char>, c: int): (e: int)
    requires 0 <= c <= |b|
    ensures c <= e <= |b|
    ensures forall k | c <= k < e :: b[k] != '"' && b[k] != '\n'
    ensures e == |b| || b[e] == '"' || b[e] == '\n'
    decreases |b| - c
  {
    if c == |b| || b[c] == '"' || b[c] == '\n' then c else StringEnd(b, c + 1)
  }

  // ---------------------------------------------------------------------
  // The %i conversion of sscanf, on text that starts with a digit
  // ---------------------------------------------------------------------

  /** The value of a hexadecimal digit character, 16 for any other character. */
  function DigitValue(c: char): (v: int)
    ensures 0 <= v <= 16
    ensures v < 10 <==> IsDigit(c)
  {
    if '0' <= c <= '9' then c as int - '0' as int
    else if 'a' <= c <= 'f' then c as int - 'a' as int + 10
    else if 'A' <= c <= 'F' then c as int - 'A' as int + 10
    else 16
  }

  /** The number of leading digits of base `base`. */
  function RunLength(s: seq<char>, base: int): (n: nat)
    ensures n <= |s| && forall k | 0 <= k < n :: DigitValue(s[k]) < base
    ensures n == |s| || DigitValue(s[n]) >= base
  {
    if |s| == 0 || DigitValue(s[0]) >= base then 0 else 1 + RunLength(s[1..], base)
  }

  /** The value of a string of digits of base `base`. */
  function Number(ds: seq<char>, base: int): (v: nat)
    requires 2 <= base <= 16 && forall k | 0 <= k < |ds| :: DigitValue(ds[k]) < base
  {
    if |ds| == 0 then 0
    else Number(ds[..|ds| - 1], base) * base + DigitValue(ds[|ds| - 1])
  }

  /**
   * sscanf with %i: 0x or 0X and a hex digit start a hexadecimal number, a
   * leading 0 an octal one, any other digit a decimal one; conversion
   * stops at the first character that is not a digit of the base.
   */
  function ScanInt(s: seq<char>): (v: nat)
    requires |s| > 0 && IsDigit(s[0])
  {
    if s[0] == '0' && |s| > 2 && (s[1] == 'x' || s[1] == 'X') && DigitValue(s[2]) < 16
    then Number(s[2..][..RunLength(s[2..], 16)], 16)
    else if s[0] == '0' then Number(s[..RunLength(s, 8)], 8)
    else Number(s[..RunLength(s, 10)], 10)
  }

  /** A single digit followed by a non-digit converts to that digit. */
  lemma ScanOneDigit(s: seq<char>)
    requires |s| > 0 && IsDigit(s[0]) && (|s| == 1 || !IsDigit(s[1]))
    requires !(s[0] == '0' && |s| > 2 && (s[1] == 'x' || s[1] == 'X') && DigitValue(s[2]) < 16)
    ensures ScanInt(s) == DigitValue(s[0])
  {
    var base := if s[0] == '0' then 8 else 10;
    RunLengthIs(s, base, 1);
    assert s[..1][..0] == [];
    assert Number(s[..1], base) == Number([], base) * base + DigitValue(s[0]);
  }

  /** A decimal digit run without a leading zero converts to its decimal value. */
  lemma ScanDecimal(s: seq<char>, n: nat)
    requires 0 < n <= |s| && s[0] != '0' && (forall k | 0 <= k < n :: IsDigit(s[k]))
    requires n == |s| || !IsDigit(s[n])
    ensures ScanInt(s) == Number(s[..n], 10)
  {
    assert IsDigit(s[0]);
    assert RunLength(s, 10) == n by { RunLengthIs(s, 10, n); }
  }

  /** A run of `n` digits of the base followed by a non-digit has length `n`. */
  lemma {:induction false} RunLengthIs(s: seq<char>, base: int, n: nat)
    requires n <= |s| && (forall k | 0 <= k < n :: DigitValue(s[k]) < base)
    requires n == |s| || DigitValue(s[n]) >= base
    ensures RunLength(s, base) == n
  {
    if n > 0 {
      RunLengthIs(s[1..], base, n - 1);
    }
  }

  // ---------------------------------------------------------------------
  // Keyword tables
  // ---------------------------------------------------------------------

  /** Where the lookup of `word` in a table ended by "" stops: at its entry or at the end marker. */
  function KeyIndex(keys: seq<string>, word: string): (k: nat)
    requires "" in keys
    ensures k < |keys| && (keys[k] == "" || keys[k] == word)
    ensures forall j | 0 <= j < k :: keys[j] != "" && keys[j] != word
  {
    if keys[0] == "" || keys[0] == word then 0
    else
      assert "" in keys[1..] by { assert keys == [keys[0]] + keys[1..]; }
      1 + KeyIndex(keys[1..], word)
  }

  /**
   * In a table whose first `n` entries are words and whose entry `n` is
   * the end marker, a word is found exactly when it is one of those
   * entries, and then at its first occurrence.
   */
  lemma KeyIndexFinds(keys: seq<string>, n: nat, word: string)
    requires n < |keys| && keys[n] == "" && forall j | 0 <= j < n :: keys[j] != ""
    ensures "" in keys
    ensures var k := KeyIndex(keys, word);
      k <= n && (k < n <==> word in keys[..n]) && (k < n ==> keys[k] == word)
  {
    var k := KeyIndex(keys, word);
    if word in keys[..n] {
      var i :| 0 <= i < n && keys[..n][i] == word;
      assert k <= i;
    }
  }

  /** A sensor type keyword is found at its type; any other word is not found. */
  lemma SensorTypeLookup(word: string)
    ensures "" in SensorTypeNames
    ensures var k := KeyIndex(SensorTypeNames, word);
      k <= NumSensorTypes && (k < NumSensorTypes <==> word in SensorTypeNames[..NumSensorTypes]) &&
      (k < NumSensorTypes ==> SensorTypeNames[k] == word)
  {
    KeyIndexFinds(SensorTypeNames, NumSensorTypes, word);
  }

  /** The position of a value index name, or NumValIndexTypes when the name is none of them. */
  function ValIndexOf(name: string): (k: int)
    ensures 0 <= k <= NumValIndexTypes
    ensures k < NumValIndexTypes ==> ValIndexTypeNames[k] == name
    ensures k == NumValIndexTypes <==> name !in ValIndexTypeNames
  {
    if name == "num" then VNum else if name == "min" then VMin else if name == "max" then VMax
    else if name == "avg" then VAvg else if name == "avi" then VAvi else if name == "var" then VVar
    else if name == "dev" then VDev else if name == "cnt" then VCnt else if name == "cpt" then VCpt
    else if name == "cpi" then VCpi else if name == "cql" then VCql
    else NumValIndexTypes
  }

  /** The messages scanning itself reports, as opposed to the index checks of a display connection. */
  predicate Lexical(x: Message)
  {
    !(x.UnknownValueIndex? || x.NumericIndexExpected? || x.ValueIndexExpected?)
  }

  /** `after` is `before` followed by scanning messages only. */
  ghost predicate Grows(before: seq<Message>, after: seq<Message>)
  {
    |before| <= |after| && after[..|before|] == before &&
    forall x | x in after[|before|..] :: Lexical(x)
  }

  lemma GrowsBy(before: seq<Message>, e: seq<Message>)
    requires forall x | x in e :: Lexical(x)
    ensures Grows(before, before + e)
  {
    assert (before + e)[|before|..] == e;
  }

  lemma GrowsTrans(a: seq<Message>, b: seq<Message>, c: seq<Message>)
    requires Grows(a, b) && Grows(b, c)
    ensures Grows(a, c)
  {
    assert c[|a|..] == b[|a|..] + c[|b|..];
  }

  /** Whether a display shows only a colour (no value index): everything but the curve displays. */
  predicate ColorOnly(dispType: int)
  {
    !(dispType == Curves || dispType == FixedCurves)
  }

  // ---------------------------------------------------------------------
  // Scanner
  // ---------------------------------------------------------------------

  class Scanner {
    const buf: array<char>
    var col: int
    var line: int
    var messages: seq<Message>

    ghost predicate Valid()
      reads this
    {
      buf.Length == MaxCol && 0 <= col <= MaxCol
    }

    /** A scanner at the start of a line whose 128-character buffer is `content`. */
    constructor (content: seq<char>)
      requires |content| == MaxCol
      ensures Valid() && fresh(buf) && buf[..] == content
      ensures col == 0 && line == 1 && messages == []
    {
      var b := new char[MaxCol](i requires 0 <= i < MaxCol => content[i]);
      assert b[..] == content;
      buf, col, line, messages := b, 0, 1, [];
    }

    /** SkipIt: past the blanks; a stop that is not at a token is reported. */
    method SkipIt()
      requires Valid()
      modifies this`col, this`messages
      ensures Valid() && col == SkipBlanks(buf[..], old(col))
      ensures messages == old(messages) + SkipReport(buf[..], col)
    {
      while col < MaxCol && IsBlank(buf[col])
        invariant Valid() && old(col) <= col && messages == old(messages)
        invariant SkipBlanks(buf[..], old(col)) == SkipBlanks(buf[..], col)
        decreases MaxCol - col
      {
        col := col + 1;
      }
      if !(col < MaxCol && IsTokenStart(buf[col])) {
        if col == MaxCol || buf[col] == '\n' || buf[col] == '\0' ||
           (buf[col] == '/' && col + 1 < MaxCol && buf[col + 1] == '/') {
          messages := messages + [UnexpectedEnd];
        } else {
          messages := messages + [IllegalCharacter];
        }
      }
    }

    /** CheckChar: skips, then tells whether `c` comes next, without taking it. */
    method CheckChar(c: char) returns (here: bool)
      requires Valid()
      modifies this`col, this`messages
      ensures Valid() && col == SkipBlanks(buf[..], old(col))
      ensures messages == old(messages) + SkipReport(buf[..], col)
      ensures here <==> col < MaxCol && buf[col] == c
      ensures Grows(old(messages), messages)
    {
      SkipIt();
      here := col < MaxCol && buf[col] == c;
      GrowsBy(old(messages), SkipReport(buf[..], col));
    }

    /** GetChar: skips and takes one character; a different one than `c` is reported. */
    method GetChar(c: char)
      requires Valid()
      modifies this`col, this`messages
      ensures Valid()
      ensures var d := SkipBlanks(buf[..], old(col));
        col == (if d < MaxCol then d + 1 else d) &&
        messages == old(messages) + CharReport(buf[..], d, c)
      ensures Grows(old(messages), messages)
    {
      SkipIt();
      if col < MaxCol {
        if buf[col] != c {
          messages := messages + [Expected(c)];
        }
        col := col + 1;
      } else {
        messages := messages + [Expected(c)];
      }
      GrowsBy(old(messages), CharReport(buf[..], SkipBlanks(buf[..], old(col)), c));
    }

    /** GetKeyWord: the longest run of letters, digits and '_' after the blanks. */
    method GetKeyWord() returns (word: string)
      requires Valid()
      modifies this`col, this`messages
      ensures Valid()
      ensures var d := SkipBlanks(buf[..], old(col));
        col == WordEnd(buf[..], d) && word == buf[d..col] &&
        messages == old(messages) + SkipReport(buf[..], d)
    {
      SkipIt();
      var i := col;
      while i < MaxCol && IsWordChar(buf[i])
        invariant col <= i <= MaxCol
        invariant WordEnd(buf[..], col) == WordEnd(buf[..], i)
      {
        i := i + 1;
      }
      word := buf[col..i];
      col := i;
    }

    /**
     * GetString: after the opening quote, the text up to the closing
     * quote, whose absence (a newline or the buffer's end first) is an
     * error; the column moves past the closing quote.
     */
    method GetString() returns (text: string)
      requires Valid()
      modifies this`col, this`messages
      ensures Valid()
      ensures var d := SkipBlanks(buf[..], old(col));
        var start := if d < MaxCol then d + 1 else d;
        var e := StringEnd(buf[..], start);
        var closed := e < MaxCol && buf[e] == '"';
        text == buf[start..e] &&
        col == (if e < MaxCol then e + 1 else MaxCol) &&
        messages == old(messages) + CharReport(buf[..], d, '"') + (if closed then [] else [MissingQuote])
      ensures Grows(old(messages), messages)
    {
      GetChar('"');
      var i := col;
      while i < MaxCol && buf[i] != '"' && buf[i] != '\n'
        invariant col <= i <= MaxCol
        invariant StringEnd(buf[..], col) == StringEnd(buf[..], i)
      {
        i := i + 1;
      }
      if !(i < MaxCol && buf[i] == '"') {
        messages := messages + [MissingQuote];
      }
      text := buf[col..i];
      col := if i < MaxCol then i + 1 else MaxCol;
      GrowsBy(old(messages), messages[|old(messages)|..]);
    }

    /**
     * GetInt: the digits after the blanks, converted as %i converts them;
     * without a digit it is an error and `old` stays.
     */
    method GetInt(previous: int) returns (v: int)
      requires Valid()
      modifies this`col, this`messages
      ensures Valid()
      ensures var d := SkipBlanks(buf[..], old(col));
        var digits := d < MaxCol && IsDigit(buf[d]);
        (digits ==> v == ScanInt(buf[d..])) && (!digits ==> v == previous) &&
        (forall k | d <= k < col :: IsDigit(buf[k])) && d <= col &&
        (col == d <==> !digits) &&
        messages == old(messages) + SkipReport(buf[..], d) + (if digits then [] else [IntegerExpected])
    {
      SkipIt();
      var i := col;
      while i < MaxCol && IsDigit(buf[i])
        invariant col <= i <= MaxCol
        invariant forall k | col <= k < i :: IsDigit(buf[k])
      {
        i := i + 1;
      }
      if i == col {
        messages := messages + [IntegerExpected];
        v := previous;
      } else {
        v := ScanInt(buf[col..]);
      }
      col := i;
    }

    /**
     * GetKeyWordIndex: reads a word and looks it up in `keys`, a table
     * ended by "". It is found when an entry before the end marker equals
     * it; `index` is that entry, or the end marker when there is none.
     */
    method GetKeyWordIndex(keys: seq<string>) returns (found: bool, index: int)
      requires Valid() && "" in keys
      modifies this`col, this`messages
      ensures Valid()
      ensures var d := SkipBlanks(buf[..], old(col));
        var word := buf[d..WordEnd(buf[..], d)];
        col == WordEnd(buf[..], d) && index == KeyIndex(keys, word) &&
        (found <==> keys[index] != "") &&
        messages == old(messages) + SkipReport(buf[..], d)
    {
      var word := GetKeyWord();
      index := 0;
      while keys[index] != "" && keys[index] != word
        invariant 0 <= index <= KeyIndex(keys, word)
        decreases KeyIndex(keys, word) - index
      {
        index := index + 1;
      }
      found := keys[index] != "";
    }

    /** The named value index of a curve display: a keyword looked up in the index names. */
    method GetNamedIndex() returns (valIndex: int, name: string)
      requires Valid()
      modifies this`col, this`messages
      ensures Valid()
      ensures valIndex == ValIndexOf(name)
      ensures var d := SkipBlanks(buf[..], old(col));
        col == WordEnd(buf[..], d) && name == buf[d..col] &&
        messages == old(messages) + SkipReport(buf[..], d) +
          (if valIndex == NumValIndexTypes then [UnknownValueIndex] else [])
    {
      name := GetKeyWord();
      valIndex := 0;
      while valIndex < NumValIndexTypes && ValIndexTypeNames[valIndex] != name
        invariant 0 <= valIndex <= NumValIndexTypes
        invariant forall j | 0 <= j < valIndex :: ValIndexTypeNames[j] != name
      {
        valIndex := valIndex + 1;
      }
      if valIndex == NumValIndexTypes {
        messages := messages + [UnknownValueIndex];
      }
    }

    /**
     * The numeric index of a frequency display, at the column reached: a
     * number when a digit is there, an error otherwise.
     */
    method GetNumericIndex(previous: int) returns (valIndex: int, ghost at: int)
      requires Valid()
      modifies this`col, this`messages
      ensures Valid()
      ensures at == -1 <==> !(old(col) < MaxCol && IsDigit(buf[old(col)]))
      ensures at == -1 ==> valIndex == previous && messages == old(messages) + [NumericIndexExpected]
      ensures at != -1 ==> at == old(col) && valIndex == ScanInt(buf[at..]) && messages == old(messages)
    {
      if !(col < MaxCol && IsDigit(buf[col])) {
        messages := messages + [NumericIndexExpected];
        valIndex, at := previous, -1;
      } else {
        at := col;
        assert SkipBlanks(buf[..], at) == at;
        valIndex := GetInt(previous);
      }
    }

    /**
     * The index inside the parentheses of a curve display: a number for a
     * frequency sensor, an index name otherwise. `e` is what it reports.
     */
    method GetIndex(previous: int, sensorType: int)
      returns (valIndex: int, ghost name: Option<string>, ghost at: int, ghost e: seq<Message>)
      requires Valid() && 0 <= sensorType < 32
      modifies this`col, this`messages
      ensures Valid() && messages == old(messages) + e
      ensures name.Some? <==> !IsFreqSensor(sensorType)
      ensures name.Some? ==> valIndex == ValIndexOf(name.value) && at == -1
      ensures at != -1 ==> 0 <= at < MaxCol && IsDigit(buf[at]) && valIndex == ScanInt(buf[at..])
      ensures name.None? && at == -1 ==> valIndex == previous
      ensures UnknownValueIndex in e <==> name.Some? && ValIndexOf(name.value) == NumValIndexTypes
      ensures NumericIndexExpected in e <==> name.None? && at == -1
      ensures ValueIndexExpected !in e
    {
      ghost var m := messages;
      if IsFreqSensor(sensorType) {
        valIndex, at := GetNumericIndex(previous);
        name := None;
        assert messages[|m|..] == if at == -1 then [NumericIndexExpected] else [];
      } else {
        var n;
        ghost var d := SkipBlanks(buf[..], col);
        valIndex, n := GetNamedIndex();
        name, at := Some(n), -1;
        ghost var tail := if valIndex == NumValIndexTypes then [UnknownValueIndex] else [];
        assert messages[|m|..] == SkipReport(buf[..], d) + tail;
      }
      e := messages[|m|..];
      assert messages == m + e;
    }

    /** GetChar('(') and the blanks after it. */
    method OpenParen() returns (ghost e: seq<Message>)
      requires Valid()
      modifies this`col, this`messages
      ensures Valid() && messages == old(messages) + e && forall x | x in e :: Lexical(x)
    {
      ghost var m := messages;
      GetChar('(');
      ghost var m1 := messages;
      SkipIt();
      GrowsBy(m1, SkipReport(buf[..], col));
      GrowsTrans(m, m1, messages);
      e := messages[|m|..];
    }

    /**
     * The rest of the parentheses: a colour string (after a comma when an
     * index came first, and then only when the comma is there) and ')'.
     */
    method GetColor(colorOnly: bool) returns (color: string, ghost e: seq<Message>)
      requires Valid()
      modifies this`col, this`messages
      ensures Valid() && messages == old(messages) + e && forall x | x in e :: Lexical(x)
    {
      ghost var m := messages;
      var comma := colorOnly;
      if !colorOnly {
        comma := CheckChar(',');
      } else {
        GrowsBy(m, []);
      }
      color := "";
      if comma {
        if !colorOnly {
          ghost var m1 := messages;
          GetChar(',');
          GrowsTrans(m, m1, messages);
        }
        ghost var m2 := messages;
        color := GetString();
        GrowsTrans(m, m2, messages);
      }
      ghost var m3 := messages;
      GetChar(')');
      GrowsTrans(m, m3, messages);
      e := messages[|m|..];
    }

    /**
     * GetConParas: the value index and colour of a display connection.
     * A Gantt display always shows the state index. A curve display must
     * be followed by a parenthesised index (a number for a frequency
     * sensor, an index name otherwise) and may add a colour; other
     * displays may give a colour only. `valIndex` starts as `previous`.
     * `parened` tells whether a '(' followed; `name` and `at` are the index
     * name read, or the column of the number read (-1 for none).
     */
    method GetConParas(previous: int, dispType: int, sensorType: int)
      returns (valIndex: int, color: string, ghost parened: bool, ghost name: Option<string>, ghost at: int,
              ghost added: seq<Message>)
      requires Valid() && (!ColorOnly(dispType) ==> 0 <= sensorType < 32)
      modifies this`col, this`messages
      ensures Valid()
      ensures messages == old(messages) + added
      ensures dispType == Gantt ==> valIndex == ProcessSensors.GanttState
      ensures ColorOnly(dispType) && dispType != Gantt ==> valIndex == previous
      ensures name.Some? <==> !ColorOnly(dispType) && parened && !IsFreqSensor(sensorType)
      ensures name.Some? ==> valIndex == ValIndexOf(name.value)
      ensures at != -1 ==>
        !ColorOnly(dispType) && parened && IsFreqSensor(sensorType) &&
        0 <= at < MaxCol && IsDigit(buf[at]) && valIndex == ScanInt(buf[at..])
      ensures name.None? && at == -1 && dispType != Gantt ==> valIndex == previous
      ensures UnknownValueIndex in added <==>
        name.Some? && ValIndexOf(name.value) == NumValIndexTypes
      ensures ValueIndexExpected in added <==> !ColorOnly(dispType) && !parened
      ensures NumericIndexExpected in added <==>
        !ColorOnly(dispType) && parened && IsFreqSensor(sensorType) && at == -1
      ensures !parened ==> color == ""
    {
      var colorOnly := ColorOnly(dispType);
      valIndex := if dispType == Gantt then ProcessSensors.GanttState else previous;
      color, name, at := "", None, -1;
      var open := CheckChar('(');
      parened := open;
      added := SkipReport(buf[..], col);
      if open {
        ghost var e1 := OpenParen();
        ghost var e2: seq<Message> := [];
        if !colorOnly {
          valIndex, name, at, e2 := GetIndex(valIndex, sensorType);
        }
        ghost var e3;
        color, e3 := GetColor(colorOnly);
        added := added + e1 + e2 + e3;
      } else if !colorOnly {
        messages := messages + [ValueIndexExpected];
        added := added + [ValueIndexExpected];
      }
    }
  }
}
