/**
 The names the resource-limits agent gives to slices and scopes, and the paths they stand for in
 the cgroup tree: hosting-r5-a12.slice lives in hosting.slice/hosting-r5.slice.
 */
module LimitsNames {
  import opened Text
  import opened Wrappers

  const SUFFIX := ".slice"

  /** Python's `$` also matches just before a line break that ends the text. */
  function Chomp(name: string): string {
    if name != [] && name[|name| - 1] == '\n' then name[..|name| - 1] else name
  }

  /** `name[: -len(".slice")]` */
  function Stem(name: string): string {
    if |name| >= |SUFFIX| then name[..|name| - |SUFFIX|] else []
  }

  /** One to nine digits after a letter: r5, a12. */
  predicate Tagged(part: string, letter: char) {
    2 <= |part| <= 10 && part[0] == letter && AllDigits(part[1..])
  }

  function Pieces(name: string): seq<string> { Split(Stem(Chomp(name)), '-') }

  predicate IsGroupSlice(name: string) {
    && EndsWith(Chomp(name), SUFFIX)
    && var parts := Pieces(name);
       |parts| == 2 && parts[0] == "hosting" && Tagged(parts[1], 'r')
  }

  predicate IsAccountSlice(name: string) {
    && EndsWith(Chomp(name), SUFFIX)
    && var parts := Pieces(name);
       && parts[0] == "hosting"
       && ((|parts| == 2 && Tagged(parts[1], 'a'))
           || (|parts| == 3 && Tagged(parts[1], 'r') && Tagged(parts[2], 'a')))
  }

  predicate IsSlice(name: string) { IsGroupSlice(name) || IsAccountSlice(name) }

  /** The group an account is nested in, if it has a reseller. */
  function GroupOf(account: string): Option<string>
    requires IsAccountSlice(account)
  {
    var parts := Pieces(account);
    if |parts| == 3 then Some("hosting-" + parts[1] + SUFFIX) else None
  }

  /** One slice per dash: the first pieces of the name, one more at each level. */
  function Levels(parts: seq<string>): seq<string> {
    seq(|parts|, i requires 0 <= i < |parts| => Join(parts[..i + 1], '-') + SUFFIX)
  }

  function SlicePath(name: string): string {
    Join(Levels(Split(Stem(name), '-')), '/')
  }

  function ScopeName(slice: string, uid: nat): string {
    "limits-" + Stem(slice) + "-u" + Decimal(uid) + ".scope"
  }

  function UserSlice(uid: nat): string {
    "user-" + Decimal(uid) + SUFFIX
  }

  // ---------------------------------------------------------------- shape of an accepted name

  predicate NameChar(c: char) { c == '-' || 'a' <= c <= 'z' || IsDigit(c) }

  lemma {:induction false} JoinedChars(parts: seq<string>)
    requires forall i :: 0 <= i < |parts| ==> forall j :: 0 <= j < |parts[i]| ==> NameChar(parts[i][j])
    ensures forall j :: 0 <= j < |Join(parts, '-')| ==> NameChar(Join(parts, '-')[j])
  {
    if |parts| > 1 { JoinedChars(parts[1..]); }
  }

  /** The stem without a trailing line break: lower-case letters, digits and dashes. */
  lemma {:induction false} CleanStem(name: string)
    requires IsSlice(name)
    ensures var clean := Stem(Chomp(name));
            && Join(Pieces(name), '-') == clean
            && |clean| > 8 && clean[..8] == "hosting-"
            && IsDigit(clean[|clean| - 1])
            && (forall j :: 0 <= j < |clean| ==> NameChar(clean[j]))
            && Chomp(name) == clean + SUFFIX
  {
    var clean := Stem(Chomp(name));
    var parts := Pieces(name);
    JoinOfSplit(clean, '-');
    assert Chomp(name) == clean + SUFFIX;
    forall i, j | 0 <= i < |parts| && 0 <= j < |parts[i]| ensures NameChar(parts[i][j]) {
      if i > 0 && j > 0 { assert parts[i][j] == parts[i][1..][j - 1]; }
    }
    JoinedChars(parts);
    var last := parts[|parts| - 1];
    assert last[|last| - 1] == last[1..][|last| - 2];
    if |parts| == 2 {
      assert clean == "hosting" + ['-'] + parts[1];
    } else {
      assert parts[1..][1..] == [parts[2]];
      assert Join(parts[1..], '-') == parts[1] + ['-'] + parts[2];
      assert clean == "hosting" + ['-'] + (parts[1] + ['-'] + parts[2]);
    }
    assert clean[|clean| - 1] == last[|last| - 1];
  }

  /** What the agent cuts the suffix from: a name with a line break keeps the dot before it. */
  lemma {:induction false} StemOf(name: string)
    requires IsSlice(name)
    ensures Stem(name) == Stem(Chomp(name)) + (if Chomp(name) == name then [] else ['.'])
    ensures '/' !in Stem(name) + SUFFIX
  {
    CleanStem(name);
    var clean := Stem(Chomp(name));
    if Chomp(name) != name {
      assert name == clean + SUFFIX + ['\n'];
      assert Stem(name) == clean + ['.'];
    } else {
      assert Stem(name) == clean;
    }
  }

  /** Accepted names are told apart by their stems. */
  lemma {:induction false} StemInjective(a: string, b: string)
    requires IsSlice(a) && IsSlice(b) && Stem(a) == Stem(b)
    ensures a == b
  {
    CleanStem(a);
    CleanStem(b);
    StemOf(a);
    StemOf(b);
    var s := Stem(a);
    if Chomp(a) == a {
      assert IsDigit(s[|s| - 1]);
    } else {
      assert s[|s| - 1] == '.';
      assert Stem(Chomp(a)) == s[..|s| - 1] == Stem(Chomp(b));
      assert a == Chomp(a) + ['\n'] && b == Chomp(b) + ['\n'];
    }
  }

  /** An accepted name is one of the documented form, or such a name and a line break. */
  lemma {:induction false} EndsInSliceIff(name: string)
    requires IsSlice(name)
    ensures EndsWith(name, SUFFIX) <==> Chomp(name) == name
    ensures Chomp(name) != name ==> name == Chomp(name) + "\n"
  {
    if EndsWith(name, SUFFIX) { assert name[|name| - 1] == SUFFIX[5]; }
  }

  // ---------------------------------------------------------------- the patterns

  /** One to nine digits. */
  predicate Digits(d: string) { 1 <= |d| <= 9 && forall i :: 0 <= i < |d| ==> '0' <= d[i] <= '9' }

  /** What a pattern that ends in `$` matches: the text, or the text and a line break. */
  predicate OnALine(name: string, text: string) { name == text || name == text + "\n" }

  predicate GroupName(name: string, digits: string) {
    Digits(digits) && OnALine(name, "hosting-r" + digits + ".slice")
  }

  predicate AccountName(name: string, seller: Option<string>, digits: string) {
    && Digits(digits) && (seller.Some? ==> Digits(seller.value))
    && OnALine(name, "hosting" + (if seller.Some? then "-r" + seller.value else "") + "-a" + digits + ".slice")
  }

  lemma {:induction false} ChompOfLine(name: string, text: string)
    requires OnALine(name, text + SUFFIX)
    ensures Chomp(name) == text + SUFFIX && Stem(Chomp(name)) == text && EndsWith(Chomp(name), SUFFIX)
  {
    assert (text + SUFFIX)[|text| + 5] == SUFFIX[5] == 'e';
    if name != text + SUFFIX { assert name[..|name| - 1] == text + SUFFIX; }
  }

  lemma {:induction false} LineOfChomp(name: string, text: string)
    requires Chomp(name) == text
    ensures OnALine(name, text)
  {
    if name != text { assert name == text + [name[|name| - 1]]; }
  }

  lemma {:induction false} NoDash(letter: char, digits: string)
    requires Digits(digits) && letter != '-'
    ensures '-' !in [letter] + digits && Tagged([letter] + digits, letter)
  {
    assert ([letter] + digits)[1..] == digits;
  }

  lemma {:induction false} SplitInTwo(first: string, last: string)
    requires '-' !in first && '-' !in last
    ensures Split(first + ['-'] + last, '-') == [first, last]
  {
    SplitFirst(first, last, '-');
    SplitWithout(last, '-');
  }

  lemma {:induction false} SplitInThree(first: string, middle: string, last: string)
    requires '-' !in first && '-' !in middle && '-' !in last
    ensures Split(first + ['-'] + (middle + ['-'] + last), '-') == [first, middle, last]
  {
    SplitFirst(first, middle + ['-'] + last, '-');
    SplitInTwo(middle, last);
  }

  /** The text a name is read as, and the pieces of it. */
  lemma {:induction false} PiecesOfLine(name: string, text: string)
    requires OnALine(name, text + SUFFIX)
    ensures Pieces(name) == Split(text, '-') && EndsWith(Chomp(name), SUFFIX)
  {
    ChompOfLine(name, text);
  }

  lemma {:induction false} GroupText(digits: string)
    ensures "hosting-r" + digits == "hosting" + ['-'] + (['r'] + digits)
  {
  }

  lemma {:induction false} CutInTwo(name: string, text: string, first: string, last: string)
    requires OnALine(name, text + SUFFIX) && text == first + ['-'] + last && '-' !in first && '-' !in last
    ensures Pieces(name) == [first, last] && EndsWith(Chomp(name), SUFFIX)
  {
    PiecesOfLine(name, text);
    SplitInTwo(first, last);
  }

  lemma {:induction false} GroupNameReads(name: string, digits: string)
    requires GroupName(name, digits)
    ensures IsGroupSlice(name)
  {
    NoDash('r', digits);
    GroupText(digits);
    CutInTwo(name, "hosting-r" + digits, "hosting", ['r'] + digits);
  }

  lemma {:induction false} GroupIsNamed(name: string) returns (digits: string)
    requires IsGroupSlice(name)
    ensures GroupName(name, digits)
  {
    var part := Pieces(name)[1];
    digits := part[1..];
    CleanStem(name);
    assert Pieces(name) == ["hosting", part] && part == ['r'] + digits;
    assert Stem(Chomp(name)) == "hosting" + ['-'] + part == "hosting-r" + digits;
    LineOfChomp(name, "hosting-r" + digits + SUFFIX);
  }

  /** A group's slice is `hosting-r`, one to nine digits and `.slice`. */
  lemma {:induction false} GroupSliceIff(name: string)
    ensures IsGroupSlice(name) <==> exists digits :: GroupName(name, digits)
  {
    if IsGroupSlice(name) { var digits := GroupIsNamed(name); }
    if exists digits :: GroupName(name, digits) {
      var digits :| GroupName(name, digits);
      GroupNameReads(name, digits);
    }
  }

  lemma {:induction false} OwnAccountText(digits: string)
    ensures "hosting" + "" + "-a" + digits == "hosting" + ['-'] + (['a'] + digits)
  {
    assert "-a" + digits == ['-'] + (['a'] + digits);
  }

  lemma {:induction false} OwnAccountReads(name: string, digits: string)
    requires AccountName(name, None, digits)
    ensures IsAccountSlice(name) && GroupOf(name) == None
  {
    NoDash('a', digits);
    OwnAccountText(digits);
    CutInTwo(name, "hosting" + "" + "-a" + digits, "hosting", ['a'] + digits);
  }

  lemma {:induction false} SoldAccountText(seller: string, digits: string)
    ensures "hosting" + ("-r" + seller) + "-a" + digits ==
            "hosting" + ['-'] + ((['r'] + seller) + ['-'] + (['a'] + digits))
    ensures "hosting-" + (['r'] + seller) + ".slice" == "hosting-r" + seller + ".slice"
  {
    assert "-r" + seller == ['-'] + (['r'] + seller);
  }

  lemma {:induction false} CutInThree(name: string, text: string, first: string, middle: string, last: string)
    requires OnALine(name, text + SUFFIX) && text == first + ['-'] + (middle + ['-'] + last)
    requires '-' !in first && '-' !in middle && '-' !in last
    ensures Pieces(name) == [first, middle, last] && EndsWith(Chomp(name), SUFFIX)
  {
    PiecesOfLine(name, text);
    SplitInThree(first, middle, last);
  }

  lemma {:induction false} SoldAccountReads(name: string, seller: string, digits: string)
    requires AccountName(name, Some(seller), digits)
    ensures IsAccountSlice(name) && GroupOf(name) == Some("hosting-r" + seller + ".slice")
  {
    NoDash('a', digits);
    NoDash('r', seller);
    SoldAccountText(seller, digits);
    CutInThree(name, "hosting" + ("-r" + seller) + "-a" + digits, "hosting", ['r'] + seller, ['a'] + digits);
  }

  lemma {:induction false} AccountNameReads(name: string, seller: Option<string>, digits: string)
    requires AccountName(name, seller, digits)
    ensures IsAccountSlice(name)
    ensures GroupOf(name) == if seller.Some? then Some("hosting-r" + seller.value + ".slice") else None
  {
    if seller.None? { OwnAccountReads(name, digits); } else { SoldAccountReads(name, seller.value, digits); }
  }

  lemma {:induction false} AccountIsNamed(name: string) returns (seller: Option<string>, digits: string)
    requires IsAccountSlice(name)
    ensures AccountName(name, seller, digits)
  {
    var parts := Pieces(name);
    CleanStem(name);
    var last := parts[|parts| - 1];
    digits := last[1..];
    assert last == ['a'] + digits;
    if |parts| == 2 {
      seller := None;
      assert parts == ["hosting", last];
      assert Stem(Chomp(name)) == "hosting" + ['-'] + last == "hosting" + "" + "-a" + digits;
      LineOfChomp(name, "hosting" + "" + "-a" + digits + SUFFIX);
    } else {
      seller := Some(parts[1][1..]);
      assert parts[1] == ['r'] + seller.value && parts[1..] == [parts[1], last];
      assert Join(parts[1..], '-') == parts[1] + ['-'] + last;
      assert Stem(Chomp(name)) == "hosting" + ['-'] + (parts[1] + ['-'] + last);
      assert Stem(Chomp(name)) == "hosting" + ("-r" + seller.value) + "-a" + digits;
      LineOfChomp(name, "hosting" + ("-r" + seller.value) + "-a" + digits + SUFFIX);
    }
  }

  /**
   An account's slice is `hosting`, perhaps `-r` and one to nine digits, which name its group, then `-a`,
   one to nine digits and `.slice`.
   */
  lemma {:induction false} AccountSliceIff(name: string)
    ensures IsAccountSlice(name) <==> exists seller, digits :: AccountName(name, seller, digits)
    ensures forall seller, digits :: AccountName(name, seller, digits) ==>
              IsAccountSlice(name) &&
              GroupOf(name) == if seller.Some? then Some("hosting-r" + seller.value + ".slice") else None
  {
    if IsAccountSlice(name) { var seller, digits := AccountIsNamed(name); }
    forall seller, digits | AccountName(name, seller, digits)
      ensures IsAccountSlice(name)
      ensures GroupOf(name) == if seller.Some? then Some("hosting-r" + seller.value + ".slice") else None
    {
      AccountNameReads(name, seller, digits);
    }
  }

  // ---------------------------------------------------------------- the naming theorems

  lemma {:induction false} SliceIsNotLogin(name: string, uid: nat)
    requires IsSlice(name)
    ensures name != UserSlice(uid)
  {
    CleanStem(name);
    assert Chomp(name)[0] == 'h' && UserSlice(uid)[0] == 'u';
  }

  lemma {:induction false} UserSliceInjective(u: nat, v: nat)
    requires UserSlice(u) == UserSlice(v)
    ensures u == v
  {
    var s := UserSlice(u);
    assert s[5..|s| - 6] == Decimal(u) && s[5..|s| - 6] == Decimal(v);
    DecimalInjective(u, v);
  }

  /** No group, account or login slice shares its name with one of another kind, or another uid. */
  lemma {:induction false} KindsNeverCoincide(group: string, account: string, u: nat, v: nat)
    requires IsGroupSlice(group) && IsAccountSlice(account)
    ensures group != account && group != UserSlice(u) && account != UserSlice(u)
    ensures UserSlice(u) == UserSlice(v) ==> u == v
  {
    SliceIsNotLogin(group, u);
    SliceIsNotLogin(account, u);
    if UserSlice(u) == UserSlice(v) { UserSliceInjective(u, v); }
  }

  lemma {:induction false} ScopeMiddle(slice: string, uid: nat)
    ensures var s := ScopeName(slice, uid);
            |s| >= 13 && s[7..|s| - 6] == Stem(slice) + ['-'] + ("u" + Decimal(uid))
  {
  }

  lemma {:induction false} ScopeInjective(a: string, u: nat, b: string, v: nat)
    requires IsSlice(a) && IsSlice(b) && ScopeName(a, u) == ScopeName(b, v)
    ensures a == b && u == v
  {
    var x, y := "u" + Decimal(u), "u" + Decimal(v);
    ScopeMiddle(a, u);
    ScopeMiddle(b, v);
    LastSeparator(Stem(a), x, Stem(b), y, '-');
    assert x[1..] == Decimal(u) && y[1..] == Decimal(v);
    DecimalInjective(u, v);
    StemInjective(a, b);
  }

  lemma {:induction false} JoinSnoc(parts: seq<string>, last: string, sep: char)
    requires parts != []
    ensures Join(parts + [last], sep) == Join(parts, sep) + [sep] + last
  {
    var all := parts + [last];
    if |parts| == 1 {
      assert all[1..] == [last];
    } else {
      assert all[1..] == parts[1..] + [last];
      JoinSnoc(parts[1..], last, sep);
    }
  }

  /** The path of a name is the path of the name one dash shorter, then the name itself. */
  lemma {:induction false} PathStep(name: string)
    ensures var parts := Split(Stem(name), '-');
            |parts| > 1 ==>
              SlicePath(name) == Join(Levels(parts[..|parts| - 1]), '/') + ['/'] + (Stem(name) + SUFFIX)
  {
    var parts := Split(Stem(name), '-');
    if |parts| > 1 {
      var front := parts[..|parts| - 1];
      JoinOfSplit(Stem(name), '-');
      assert parts[..|parts|] == parts;
      forall i | 0 <= i < |front| ensures Levels(parts)[i] == Levels(front)[i] {
        assert front[..i + 1] == parts[..i + 1];
      }
      assert Levels(parts) == Levels(front) + [Stem(name) + SUFFIX];
      JoinSnoc(Levels(front), Stem(name) + SUFFIX, '/');
    }
  }

  /** Splitting a stem: the pieces, with the dot a line break leaves on the last one. */
  lemma {:induction false} StemPieces(name: string)
    requires IsSlice(name)
    ensures var parts := Split(Stem(name), '-');
            |parts| == |Pieces(name)| && parts[..|parts| - 1] == Pieces(name)[..|parts| - 1]
  {
    StemOf(name);
    if Chomp(name) != name {
      SplitAppend(Stem(Chomp(name)), '.', '-');
    } else {
      assert Stem(name) == Stem(Chomp(name));
    }
  }

  lemma {:induction false} GroupPath(group: string)
    requires IsGroupSlice(group)
    ensures SlicePath(group) == "hosting.slice" + ['/'] + (Stem(group) + SUFFIX)
  {
    PathStep(group);
    StemPieces(group);
    var front := Split(Stem(group), '-')[..1];
    assert front == ["hosting"] && front[..0 + 1] == front;
    assert Levels(front)[0] == "hosting.slice";
    assert Levels(front) == ["hosting.slice"];
  }

  lemma {:induction false} TwoPieces(first: string, second: string)
    requires '-' !in first && '-' !in second
    ensures Split(first + ['-'] + second, '-') == [first, second]
  {
    SplitFirst(first, second, '-');
    SplitWithout(second, '-');
  }

  /** A name with a line break after it is accepted, and stands for a directory that is not named after it. */
  lemma {:induction false} LineBreakIsAccepted(name: string)
    requires name == "hosting-r5.slice\n"
    ensures IsGroupSlice(name)
    ensures SlicePath(name) == "hosting.slice" + "/" + "hosting-r5..slice"
  {
    LineBreakIsGroup(name, "hosting-r5.slice");
    GroupPath(name);
    assert Stem(name) + SUFFIX == "hosting-r5..slice";
  }

  lemma {:induction false} LineBreakIsGroup(name: string, clean: string)
    requires clean == "hosting-r5.slice" && name == clean + "\n"
    ensures IsGroupSlice(name)
  {
    assert Chomp(name) == clean;
    assert Stem(clean) == "hosting" + ['-'] + "r5";
    TwoPieces("hosting", "r5");
    assert "r5"[1..] == "5";
  }

  lemma {:induction false} SlicePathInjective(a: string, b: string)
    requires IsSlice(a) && IsSlice(b) && SlicePath(a) == SlicePath(b)
    ensures a == b
  {
    StemPieces(a);
    StemPieces(b);
    PathStep(a);
    PathStep(b);
    StemOf(a);
    StemOf(b);
    var pa, pb := Split(Stem(a), '-'), Split(Stem(b), '-');
    LastSeparator(Join(Levels(pa[..|pa| - 1]), '/'), Stem(a) + SUFFIX,
                  Join(Levels(pb[..|pb| - 1]), '/'), Stem(b) + SUFFIX, '/');
    assert Stem(a) == (Stem(a) + SUFFIX)[..|Stem(a)|];
    assert Stem(b) == (Stem(b) + SUFFIX)[..|Stem(b)|];
    StemInjective(a, b);
  }

  /** An account sits exactly one level below its reseller's group, or below hosting.slice. */
  lemma {:induction false} AccountSitsUnderItsGroup(account: string)
    requires IsAccountSlice(account)
    ensures GroupOf(account).Some? ==> IsGroupSlice(GroupOf(account).value)
    ensures SlicePath(account) ==
              (if GroupOf(account).Some? then SlicePath(GroupOf(account).value) else "hosting.slice")
              + "/" + Stem(account) + SUFFIX
  {
    StemPieces(account);
    PathStep(account);
    var parts := Pieces(account);
    var front := Split(Stem(account), '-')[..|parts| - 1];
    if |parts| == 3 {
      var group := GroupOf(account).value;
      var stem := "hosting-" + parts[1];
      assert Stem(group) == stem && Chomp(group) == group;
      SplitPartsClean(Stem(Chomp(account)), '-');
      assert stem == "hosting" + ['-'] + parts[1];
      SplitFirst("hosting", parts[1], '-');
      SplitWithout(parts[1], '-');
      assert Split(stem, '-') == ["hosting", parts[1]] == front;
      assert SlicePath(group) == Join(Levels(front), '/');
    } else {
      assert front == ["hosting"];
      assert front[..0 + 1] == front;
      assert Levels(front)[0] == Join(front, '-') + SUFFIX == "hosting.slice";
      assert Levels(front) == ["hosting.slice"];
    }
  }
}
