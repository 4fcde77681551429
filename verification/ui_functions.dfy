/**
 * The pure helpers of the UI library: class-name chaining (`clsx`), integer
 * ranges, the pagination window, initials of a name, and the `YYYY-MM-DD`
 * rendering of a calendar date.
 */
module UiFunctions {
  import opened Results
  import opened Strings

  // ---------------------------------------------------------------------------
  // clsx
  // ---------------------------------------------------------------------------

  /**
   * One argument of `clsx`: a string, `undefined`, or an object whose own
   * enumerable keys are listed in JavaScript's property enumeration order.
   */
  datatype ClassArg = Text(text: string) | Undefined | Record(entries: seq<(string, bool)>)

  /** The keys of an object whose value is truthy, in enumeration order. */
  function TruthyKeys(entries: seq<(string, bool)>): seq<string> {
    if |entries| == 0 then []
    else (if entries[0].1 then [entries[0].0] else []) + TruthyKeys(entries[1..])
  }

  /** The class names one argument pushes: a non-empty string, or the truthy keys. */
  function ClassesOf(arg: ClassArg): (r: seq<string>)
    ensures forall c :: c in r <==> Contributes(arg, c)
  {
    match arg
    case Text(s) => if s != "" then [s] else []
    case Undefined => []
    case Record(entries) =>
      assert forall c :: c in TruthyKeys(entries) <==> Contributes(arg, c) by {
        forall c ensures c in TruthyKeys(entries) <==> Contributes(arg, c) {
          TruthyKeysMembership(entries, c);
        }
      }
      TruthyKeys(entries)
  }

  /** The class names `clsx` collects, argument by argument. */
  function Classes(args: seq<ClassArg>): seq<string> {
    if |args| == 0 then [] else ClassesOf(args[0]) + Classes(args[1..])
  }

  /**
   * `clsx(...args)`: the collected class names joined by single spaces. When
   * there is a class and none contains a space, splitting the result on a
   * space gives the classes back.
   */
  function Clsx(args: seq<ClassArg>): (r: string)
    ensures r == Join(Classes(args), ' ')
    ensures |Classes(args)| >= 1 && (forall i :: 0 <= i < |Classes(args)| ==> ' ' !in Classes(args)[i])
            ==> Split(r, ' ') == Classes(args)
    ensures Classes(args) == [] ==> r == ""
  {
    var classes := Classes(args);
    assert |classes| >= 1 && (forall i :: 0 <= i < |classes| ==> ' ' !in classes[i])
           ==> Split(Join(classes, ' '), ' ') == classes by {
      if |classes| >= 1 && (forall i :: 0 <= i < |classes| ==> ' ' !in classes[i]) {
        SplitJoin(classes, ' ');
      }
    }
    Join(classes, ' ')
  }

  /** One argument alone yields its own classes. */
  lemma ClassesOne(x: ClassArg)
    ensures Classes([x]) == ClassesOf(x)
  {
    assert [x][1..] == [];
  }

  /** Whether argument `arg` contributes the class name `c`. */
  predicate Contributes(arg: ClassArg, c: string) {
    match arg
    case Text(s) => s == c && s != ""
    case Undefined => false
    case Record(entries) => exists j :: 0 <= j < |entries| && entries[j] == (c, true)
  }

  lemma {:induction false} TruthyKeysMembership(entries: seq<(string, bool)>, c: string)
    ensures c in TruthyKeys(entries) <==> exists j :: 0 <= j < |entries| && entries[j] == (c, true)
  {
    if |entries| > 0 {
      TruthyKeysMembership(entries[1..], c);
      if c in TruthyKeys(entries[1..]) {
        var j :| 0 <= j < |entries[1..]| && entries[1..][j] == (c, true);
        assert entries[j + 1] == (c, true);
      }
      if exists j :: 0 <= j < |entries| && entries[j] == (c, true) {
        var j :| 0 <= j < |entries| && entries[j] == (c, true);
        if j > 0 {
          assert entries[1..][j - 1] == (c, true);
        }
      }
    }
  }

  /** A class name is in the output list exactly when some argument contributes it. */
  lemma {:induction false} ClassesMembership(args: seq<ClassArg>, c: string)
    ensures c in Classes(args) <==> exists i :: 0 <= i < |args| && Contributes(args[i], c)
  {
    if |args| > 0 {
      ClassesMembership(args[1..], c);
      assert c in ClassesOf(args[0]) <==> Contributes(args[0], c) by {
        if args[0].Record? {
          TruthyKeysMembership(args[0].entries, c);
        }
      }
      if exists i :: 0 <= i < |args| && Contributes(args[i], c) {
        var i :| 0 <= i < |args| && Contributes(args[i], c);
        if i > 0 {
          assert Contributes(args[1..][i - 1], c);
        }
      }
      if exists i :: 0 <= i < |args[1..]| && Contributes(args[1..][i], c) {
        var i :| 0 <= i < |args[1..]| && Contributes(args[1..][i], c);
        assert Contributes(args[i + 1], c);
      }
    }
  }

  /** Argument order is kept: the classes of a concatenation are concatenated. */
  lemma {:induction false} ClassesAppend(a: seq<ClassArg>, b: seq<ClassArg>)
    ensures Classes(a + b) == Classes(a) + Classes(b)
  {
    if |a| == 0 {
      assert a + b == b;
    } else {
      var ab := a + b;
      assert ab[0] == a[0] && ab[1..] == a[1..] + b;
      ClassesAppend(a[1..], b);
      assert Classes(ab) == ClassesOf(a[0]) + (Classes(a[1..]) + Classes(b));
    }
  }

  /** `undefined` and `''` arguments change nothing wherever they appear. */
  lemma ClsxIgnoresEmpty(a: seq<ClassArg>, b: seq<ClassArg>, x: ClassArg)
    requires x == Undefined || x == Text("")
    ensures Clsx(a + [x] + b) == Clsx(a + b)
  {
    ClassesAppend(a + [x], b);
    ClassesAppend(a, [x]);
    assert [x][1..] == [];
    assert Classes([x]) == [];
    assert Classes(a + [x]) == Classes(a);
    ClassesAppend(a, b);
  }

  /** The documented example: `"class1 class2 class3"`. */
  lemma ClsxDocExample()
    ensures Clsx([Text("class1"), Text("class2"), Undefined,
                  Record([("class3", true), ("class4", false)])]) == "class1 class2 class3"
  {
    DocExampleClasses();
    DocExampleJoin();
  }

  lemma DocExampleClasses()
    ensures Classes([Text("class1"), Text("class2"), Undefined,
                     Record([("class3", true), ("class4", false)])]) == ["class1", "class2", "class3"]
  {
    var entries := [("class3", true), ("class4", false)];
    var args := [Text("class1"), Text("class2"), Undefined, Record(entries)];
    assert TruthyKeys(entries[1..]) == [] by { assert entries[1..][1..] == []; }
    assert TruthyKeys(entries) == ["class3"];
    var names := ["class1", "class2", "class3"];
    assert Classes(args[3..]) == names[2..] by { assert args[3..][1..] == []; }
    assert Classes(args[2..]) == names[2..] by { assert args[2..][1..] == args[3..]; }
    assert Classes(args[1..]) == names[1..] by { assert args[1..][1..] == args[2..]; }
  }

  lemma DocExampleJoin()
    ensures Join(["class1", "class2", "class3"], ' ') == "class1 class2 class3"
  {
    var names := ["class1", "class2", "class3"];
    assert Join(names[2..], ' ') == "class3";
    assert Join(names[1..], ' ') == "class2 class3" by { assert names[1..][1..] == names[2..]; }
  }

  // ---------------------------------------------------------------------------
  // range and getPageRange
  // ---------------------------------------------------------------------------

  /**
   * `range(start, end)`: the integers start, start + 1, ..., end - 1.
   * An `end` below `start` gives an empty array (a negative array length is
   * clamped to zero).
   */
  function Range(start: int, end: int): (r: seq<int>)
    ensures |r| == if end > start then end - start else 0
    ensures forall i :: 0 <= i < |r| ==> r[i] == start + i
    decreases end - start
  {
    if end <= start then [] else [start] + Range(start + 1, end)
  }

  function Max(a: int, b: int): int {
    if a >= b then a else b
  }

  function Min(a: int, b: int): int {
    if a <= b then a else b
  }

  /**
   * `getPageRange(currentPage, nbPages)` as the code computes it: for any
   * arguments, at most four consecutive pages between 1 and nbPages.
   */
  function GetPageRange(currentPage: int, nbPages: int): (r: seq<int>)
    ensures ConsecutivePages(r, nbPages) && |r| <= 4
  {
    var start := Max(1, currentPage - 2);
    var end := start + 4;
    if end <= nbPages then Range(start, end) else Range(Max(1, nbPages - 3), nbPages + 1)
  }

  /** A run of consecutive page numbers between 1 and nbPages. */
  predicate ConsecutivePages(pages: seq<int>, nbPages: int) {
    && (forall i :: 0 <= i < |pages| ==> 1 <= pages[i] <= nbPages)
    && (forall i :: 0 < i < |pages| ==> pages[i] == pages[i - 1] + 1)
  }

  /**
   * For a current page inside 1..nbPages the window is a run of consecutive
   * valid pages holding the current page, and it has min(4, nbPages) pages.
   */
  lemma GetPageRangeWindow(currentPage: int, nbPages: int)
    requires 1 <= currentPage <= nbPages
    ensures ConsecutivePages(GetPageRange(currentPage, nbPages), nbPages)
    ensures currentPage in GetPageRange(currentPage, nbPages)
    ensures |GetPageRange(currentPage, nbPages)| == Min(4, nbPages)
    ensures 3 <= currentPage && currentPage + 2 <= nbPages ==>
              GetPageRange(currentPage, nbPages) == [currentPage - 2, currentPage - 1, currentPage, currentPage + 1]
  {
    var r := GetPageRange(currentPage, nbPages);
    var start := Max(1, currentPage - 2);
    var first := if start + 4 <= nbPages then start else Max(1, nbPages - 3);
    assert r[currentPage - first] == currentPage;
  }

  /** The code returns 4 pages where its documentation promises 5. */
  lemma GetPageRangeDocMismatch()
    ensures GetPageRange(1, 10) == [1, 2, 3, 4] != [1, 2, 3, 4, 5]
    ensures GetPageRange(4, 10) == [2, 3, 4, 5] != [2, 3, 4, 5, 6]
    ensures GetPageRange(10, 10) == [7, 8, 9, 10] != [6, 7, 8, 9, 10]
  {
    assert Range(1, 5) == [1, 2, 3, 4];
    assert Range(2, 6) == [2, 3, 4, 5];
    assert Range(7, 11) == [7, 8, 9, 10];
  }

  /** The five-page window the documentation describes: at most five consecutive pages between 1 and nbPages. */
  function GetPageRangeOfFive(currentPage: int, nbPages: int): (r: seq<int>)
    ensures ConsecutivePages(r, nbPages) && |r| <= 5
  {
    var start := Max(1, currentPage - 2);
    var end := start + 5;
    if end <= nbPages + 1 then Range(start, end) else Range(Max(1, nbPages - 4), nbPages + 1)
  }

  /** The corrected window keeps every property and has min(5, nbPages) pages. */
  lemma GetPageRangeOfFiveWindow(currentPage: int, nbPages: int)
    requires 1 <= currentPage <= nbPages
    ensures ConsecutivePages(GetPageRangeOfFive(currentPage, nbPages), nbPages)
    ensures currentPage in GetPageRangeOfFive(currentPage, nbPages)
    ensures |GetPageRangeOfFive(currentPage, nbPages)| == Min(5, nbPages)
    ensures 3 <= currentPage <= nbPages - 2 ==>
              GetPageRangeOfFive(currentPage, nbPages)
              == [currentPage - 2, currentPage - 1, currentPage, currentPage + 1, currentPage + 2]
  {
    var r := GetPageRangeOfFive(currentPage, nbPages);
    var start := Max(1, currentPage - 2);
    var first := if start + 5 <= nbPages + 1 then start else Max(1, nbPages - 4);
    assert r[currentPage - first] == currentPage;
  }

  /** The corrected window reproduces the documented examples. */
  lemma GetPageRangeOfFiveDocExamples()
    ensures GetPageRangeOfFive(1, 10) == [1, 2, 3, 4, 5]
    ensures GetPageRangeOfFive(4, 10) == [2, 3, 4, 5, 6]
    ensures GetPageRangeOfFive(10, 10) == [6, 7, 8, 9, 10]
  {
    assert Range(1, 6) == [1, 2, 3, 4, 5];
    assert Range(2, 7) == [2, 3, 4, 5, 6];
    assert Range(6, 11) == [6, 7, 8, 9, 10];
  }

  // ---------------------------------------------------------------------------
  // getInitials
  // ---------------------------------------------------------------------------

  /** The characters `String.prototype.trim` removes (white space and line terminators). */
  predicate IsTrimmed(c: char) {
    || c == '\t' || c == '\n' || c == '\U{000B}' || c == '\U{000C}' || c == '\r' || c == ' '
    || c == '\U{00A0}' || c == '\U{1680}' || ('\U{2000}' <= c <= '\U{200A}')
    || c == '\U{2028}' || c == '\U{2029}' || c == '\U{202F}' || c == '\U{205F}'
    || c == '\U{3000}' || c == '\U{FEFF}'
  }

  /** `name.trim().length === 0`. */
  predicate IsBlank(name: string) {
    forall i :: 0 <= i < |name| ==> IsTrimmed(name[i])
  }

  /** `toUpperCase` on one character, for the ASCII letters. */
  function ToUpper(c: char): char {
    if 'a' <= c <= 'z' then (c as int - 'a' as int + 'A' as int) as char else c
  }

  /** `.filter(Boolean)` on strings: drop the empty ones. */
  function NonEmpty(names: seq<string>): (r: seq<string>)
    ensures forall i :: 0 <= i < |r| ==> r[i] != ""
    ensures |r| <= |names|
  {
    if |names| == 0 then []
    else (if names[0] != "" then [names[0]] else []) + NonEmpty(names[1..])
  }

  /** The words of a name that are not white space only. */
  function NonBlankWords(names: seq<string>): (r: seq<string>)
    ensures forall i :: 0 <= i < |r| ==> !IsBlank(r[i])
    ensures |r| <= |names|
  {
    if |names| == 0 then []
    else (if !IsBlank(names[0]) then [names[0]] else []) + NonBlankWords(names[1..])
  }

  /** `filter(Boolean)` keeps a word exactly when it is non-empty. */
  lemma {:induction false} NonEmptyMembers(names: seq<string>, w: string)
    ensures w in NonEmpty(names) <==> w in names && w != ""
  {
    if |names| > 0 {
      NonEmptyMembers(names[1..], w);
      assert names == [names[0]] + names[1..];
    }
  }

  /** The `trim` test keeps a word exactly when it is not white space only. */
  lemma {:induction false} NonBlankWordsMembers(names: seq<string>, w: string)
    ensures w in NonBlankWords(names) <==> w in names && !IsBlank(w)
  {
    if |names| > 0 {
      NonBlankWordsMembers(names[1..], w);
      assert names == [names[0]] + names[1..];
    }
  }

  /** The loop of `getInitials`: the upper-cased first character of every non-blank name. */
  function InitialsOf(names: seq<string>): (r: string)
    ensures |r| == |NonBlankWords(names)|
    ensures forall i :: 0 <= i < |r| ==> r[i] == ToUpper(NonBlankWords(names)[i][0])
  {
    if |names| == 0 then ""
    else
      var rest := InitialsOf(names[1..]);
      if !IsBlank(names[0]) then
        assert NonBlankWords(names) == [names[0]] + NonBlankWords(names[1..]);
        [ToUpper(names[0][0])] + rest
      else
        rest
  }

  /** `getInitials(fullName)`: one initial per space-separated word that is not blank. */
  function GetInitials(fullName: string): (r: string)
    ensures |r| == |NonBlankWords(Split(fullName, ' '))|
  {
    NonBlankOfNonEmpty(Split(fullName, ' '));
    InitialsOf(NonEmpty(Split(fullName, ' ')))
  }

  /** Dropping the empty names first does not change which names are non-blank. */
  lemma {:induction false} NonBlankOfNonEmpty(names: seq<string>)
    ensures NonBlankWords(NonEmpty(names)) == NonBlankWords(names)
  {
    if |names| > 0 {
      NonBlankOfNonEmpty(names[1..]);
      var head := if names[0] != "" then [names[0]] else [];
      assert NonEmpty(names) == head + NonEmpty(names[1..]);
      if head == [] {
        assert IsBlank(names[0]);
        assert NonEmpty(names) == NonEmpty(names[1..]);
        assert NonBlankWords(names) == NonBlankWords(names[1..]);
      } else {
        assert NonEmpty(names) == [names[0]] + NonEmpty(names[1..]);
        assert (head + NonEmpty(names[1..]))[1..] == NonEmpty(names[1..]);
      }
    }
  }

  /**
   * One initial per space-separated word that is not blank, in order: the
   * upper-cased first character of that word.
   */
  lemma GetInitialsWords(fullName: string)
    ensures |GetInitials(fullName)| == |NonBlankWords(Split(fullName, ' '))|
    ensures forall i :: 0 <= i < |GetInitials(fullName)| ==>
              GetInitials(fullName)[i] == ToUpper(NonBlankWords(Split(fullName, ' '))[i][0])
  {
    NonBlankOfNonEmpty(Split(fullName, ' '));
  }

  lemma {:induction false} NonBlankWordsKeepsAll(names: seq<string>)
    requires forall i :: 0 <= i < |names| ==> !IsBlank(names[i])
    ensures NonBlankWords(names) == names
  {
    if |names| > 0 {
      NonBlankWordsKeepsAll(names[1..]);
      assert names == [names[0]] + names[1..];
    }
  }

  /** Initials of names written "first last ...": the first letter of each name. */
  lemma GetInitialsOfJoinedNames(names: seq<string>)
    requires |names| >= 1
    requires forall i :: 0 <= i < |names| ==> |names[i]| > 0 && !IsBlank(names[i]) && ' ' !in names[i]
    ensures |GetInitials(Join(names, ' '))| == |names|
    ensures forall i :: 0 <= i < |names| ==> GetInitials(Join(names, ' '))[i] == ToUpper(names[i][0])
  {
    SplitJoin(names, ' ');
    NonBlankWordsKeepsAll(names);
    GetInitialsWords(Join(names, ' '));
  }

  /** The documented example: `getInitials("John Doe") === "JD"`. */
  lemma GetInitialsDocExample()
    ensures GetInitials("John Doe") == "JD"
  {
    var names := ["John", "Doe"];
    JohnDoeWords();
    GetInitialsOfJoinedNames(names);
    var r := GetInitials("John Doe");
    assert r[0] == 'J' && r[1] == 'D';
  }

  lemma JohnDoeWords()
    ensures Join(["John", "Doe"], ' ') == "John Doe"
    ensures !IsBlank("John") && !IsBlank("Doe")
  {
    var names := ["John", "Doe"];
    assert Join(names[1..], ' ') == "Doe";
    assert !IsTrimmed("John"[0]);
    assert !IsTrimmed("Doe"[0]);
  }

  // ---------------------------------------------------------------------------
  // formatDateToSimpleDate
  // ---------------------------------------------------------------------------

  /**
   * The argument of `formatDateToSimpleDate`: `undefined`, the empty string
   * (both falsy), or a date given by its local calendar fields, with the
   * month counted from 1.
   */
  datatype DateArg = Missing | EmptyText | Calendar(year: int, month: int, day: int)

  /** Two-digit field: `n.toString().padStart(2, '0')`. */
  function TwoDigits(n: int): string {
    PadStart(IntToDecimal(n), 2, '0')
  }

  /** `formatDateToSimpleDate(date)`. */
  function FormatDateToSimpleDate(date: DateArg): (r: Option<string>)
    ensures r.None? <==> !date.Calendar?
  {
    match date
    case Calendar(y, m, d) => Some(IntToDecimal(y) + "-" + TwoDigits(m) + "-" + TwoDigits(d))
    case _ => None
  }

  /** Reads a `year-month-day` string of three decimal fields back. */
  function ParseSimpleDate(s: string): Option<(int, int, int)> {
    var parts := Split(s, '-');
    if |parts| == 3 && AllDigits(parts[0]) && AllDigits(parts[1]) && AllDigits(parts[2])
    then Some((ParseDecimal(parts[0]), ParseDecimal(parts[1]), ParseDecimal(parts[2])))
    else None
  }

  /** A padded field of a month or day is two digits that read back as the value. */
  lemma TwoDigitsField(n: int)
    requires 1 <= n <= 99
    ensures |TwoDigits(n)| == 2
    ensures AllDigits(TwoDigits(n)) && '-' !in TwoDigits(n)
    ensures ParseDecimal(TwoDigits(n)) == n
  {
    var s := NatToDecimal(n);
    ParseNatToDecimal(n);
    var r := TwoDigits(n);
    if n < 10 {
      assert r == ['0'] + s;
      ParseLeadingZeros(['0'], s);
    } else {
      assert n / 10 < 10;
      assert r == s;
    }
  }

  /**
   * Month and day are rendered with two digits, and the rendered string
   * splits on '-' into three decimal fields that read back as the same date.
   */
  lemma FormatDateRoundTrip(year: int, month: int, day: int)
    requires 0 <= year && 1 <= month <= 12 && 1 <= day <= 31
    ensures FormatDateToSimpleDate(Calendar(year, month, day)).Some?
    ensures ParseSimpleDate(FormatDateToSimpleDate(Calendar(year, month, day)).value)
            == Some((year, month, day))
  {
    FormatDateFields(year, month, day);
    FieldsReadBack(year, month, day);
  }

  /** The rendered date is the year and the two padded fields, separated by '-'. */
  lemma FormatDateFields(year: int, month: int, day: int)
    ensures FormatDateToSimpleDate(Calendar(year, month, day))
            == Some(IntToDecimal(year) + ['-'] + TwoDigits(month) + ['-'] + TwoDigits(day))
  {
  }

  /** The three rendered fields, separated by '-', read back as the date. */
  lemma FieldsReadBack(year: int, month: int, day: int)
    requires 0 <= year && 1 <= month <= 12 && 1 <= day <= 31
    ensures ParseSimpleDate(IntToDecimal(year) + ['-'] + TwoDigits(month) + ['-'] + TwoDigits(day))
            == Some((year, month, day))
  {
    YearField(year);
    TwoDigitsField(month);
    TwoDigitsField(day);
    ParseFields(IntToDecimal(year), TwoDigits(month), TwoDigits(day));
  }

  /** The year field of a non-negative year is digits that read back as the year. */
  lemma YearField(year: int)
    requires 0 <= year
    ensures AllDigits(IntToDecimal(year)) && '-' !in IntToDecimal(year)
    ensures ParseDecimal(IntToDecimal(year)) == year
  {
    ParseNatToDecimal(year);
  }

  /** Three digit strings joined by '-' read back as their three values. */
  lemma ParseFields(a: string, b: string, c: string)
    requires AllDigits(a) && AllDigits(b) && AllDigits(c)
    requires '-' !in a && '-' !in b && '-' !in c
    ensures ParseSimpleDate(a + ['-'] + b + ['-'] + c) == Some((ParseDecimal(a), ParseDecimal(b), ParseDecimal(c)))
  {
    SplitThree(a, b, c, '-');
  }

  /** `new Date(0)` read as 1 January 1970 renders as "1970-01-01", not the documented "1970-1-1". */
  lemma FormatDateDocExample()
    ensures FormatDateToSimpleDate(Calendar(1970, 1, 1)) == Some("1970-01-01")
    ensures FormatDateToSimpleDate(Calendar(1970, 1, 1)) != Some("1970-1-1")
  {
    Year1970();
    FirstAsTwoDigits();
    FormatDateFields(1970, 1, 1);
    assert "1970" + ['-'] + "01" + ['-'] + "01" == "1970-01-01";
  }

  /** The year of the epoch in decimal. */
  lemma Year1970()
    ensures IntToDecimal(1970) == "1970"
  {
    assert NatToDecimal(1) == "1";
    assert NatToDecimal(19) == NatToDecimal(1) + [DigitChar(9)] == "19";
    assert NatToDecimal(197) == NatToDecimal(19) + [DigitChar(7)] == "197";
    assert NatToDecimal(1970) == NatToDecimal(197) + [DigitChar(0)];
  }

  /** The first month or day pads to "01". */
  lemma FirstAsTwoDigits()
    ensures TwoDigits(1) == "01"
  {
    assert IntToDecimal(1) == "1";
    assert PadStart("1", 2, '0') == seq(1, _ => '0') + "1";
  }
}
