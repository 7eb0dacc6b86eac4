/**
 * The text logic of the source-tree lint script: licence-header checks,
 * detection of tabs, trailing whitespace and forbidden calls, the fixers
 * that rewrite a file's text, and the per-file fixed/found tally.
 *
 * Every operation takes a file name and the file's text and returns a value.
 * Python exceptions the text handling can raise (a tuple unpacking of a
 * `split` with the wrong number of parts, indexing the last element of an
 * empty licence tuple) are results, not preconditions.
 */
module LicensesCheck {
  import opened Wrappers
  import opened Text

  /** The Python exceptions the script's text handling can raise. */
  datatype PyError = ValueError | IndexError

  /** The outcome of running a piece of the script: a returned value or a raised exception. */
  datatype Run<+T> = Returns(value: T) | Raises(error: PyError)

  /** The character class `[\t\f\v ]` of the script's whitespace regexes. */
  predicate IsTrailingSpace(c: char) {
    c == '\t' || c == FormFeed || c == VerticalTab || c == ' '
  }

  /** 1 when some approved licence text is a prefix of `content`, else 0. */
  function LicenseStartsHere(content: string, approved: seq<string>): (r: nat)
    ensures r <= 1
    ensures r == 1 <==> exists i :: 0 <= i < |approved| && StartsWith(content, approved[i])
  {
    if approved == [] then 0
    else if StartsWith(content, approved[0]) then 1
    else
      assert forall i :: 1 <= i < |approved| ==> approved[i] == approved[1..][i - 1];
      LicenseStartsHere(content, approved[1..])
  }

  // ---------------------------------------------------------------------
  // Licence check

  /** Text put in front of other text starts the result, and the other text ends it. */
  lemma Prepended(front: string, back: string)
    ensures StartsWith(front + back, front) && EndsWith(front + back, back)
  {
    assert (front + back)[..|front|] == front;
    assert (front + back)[|front + back| - |back|..] == back;
  }

  lemma EndsWithTrans(s: string, t: string, u: string)
    requires EndsWith(s, t) && EndsWith(t, u)
    ensures EndsWith(s, u)
  {
    assert s[|s| - |u|..] == s[|s| - |t|..][|t| - |u|..];
  }

  /** `(ignore, content) = content.split("\n", 1); content = content.lstrip()` */
  function SkipLine(content: string): (r: Run<string>)
    ensures r.Raises? <==> '\n' !in content
    ensures r.Raises? ==> r.error == ValueError
    ensures r.Returns? ==> EndsWith(content, r.value) && |r.value| < |content|
  {
    match SplitOnce(content, '\n')
    case None => Raises(ValueError)
    case Some((_, rest)) =>
      assert content[|content| - |rest|..] == rest;
      Returns(LStrip(rest))
  }

  /**
   * The text a Python file's licence must start: what follows a leading
   * `#!` line and then a `# -*-` coding line, each skipped with the
   * whitespace after it.
   */
  function PythonLicenseText(content: string): (r: Run<string>)
    ensures StartsWith(content, "#!") && '\n' !in content ==> r == Raises(ValueError)
    ensures !StartsWith(content, "#!") && !StartsWith(content, "# -*-") ==> r == Returns(content)
    ensures r.Returns? ==> EndsWith(content, r.value)
  {
    var afterBang := if StartsWith(content, "#!") then SkipLine(content) else Returns(content);
    match afterBang
    case Raises(e) => Raises(e)
    case Returns(text) =>
      if StartsWith(text, "# -*-") then
        match SkipLine(text)
        case Raises(e) => Raises(e)
        case Returns(rest) =>
          EndsWithTrans(content, text, rest);
          Returns(rest)
      else Returns(text)
  }

  /**
   * verifyLicense: 0 when the file starts with an approved licence, 1 when
   * it does not. A `.py` file must start with `#` and, after its hashbang
   * and coding lines, with an approved Python licence; any other file must
   * start with a C comment opener and with an approved Java/C licence.
   */
  function VerifyLicense(f: string, content: string, approvedJavaC: seq<string>, approvedPython: seq<string>): (r: Run<nat>)
    ensures r.Returns? ==> r.value <= 1
    ensures !EndsWith(f, ".py") ==>
      r.Returns? &&
      (r.value == 0 <==> StartsWith(content, "/*") && exists i :: 0 <= i < |approvedJavaC| && StartsWith(content, approvedJavaC[i]))
    ensures EndsWith(f, ".py") && !StartsWith(content, "#") ==> r == Returns(1)
    ensures EndsWith(f, ".py") && StartsWith(content, "#") ==>
      (r.Raises? <==> PythonLicenseText(content).Raises?) &&
      (r.Returns? ==> (r.value == 0 <==> exists i :: 0 <= i < |approvedPython| && StartsWith(PythonLicenseText(content).value, approvedPython[i])))
  {
    if EndsWith(f, ".py") then
      if !StartsWith(content, "#") then Returns(1)
      else
        match PythonLicenseText(content)
        case Raises(e) => Raises(e)
        case Returns(text) => Returns(if LicenseStartsHere(text, approvedPython) == 1 then 0 else 1)
    else if !StartsWith(content, "/*") then Returns(1)
    else Returns(if LicenseStartsHere(content, approvedJavaC) == 1 then 0 else 1)
  }

  // ---------------------------------------------------------------------
  // Whitespace and forbidden-call checks

  /** `re.search(r'[\t\f\v ]\n', s)` found a match. */
  function HasSpaceBeforeNewline(s: string): (b: bool)
    ensures b <==> exists i :: 0 <= i < |s| - 1 && IsTrailingSpace(s[i]) && s[i + 1] == '\n'
  {
    if |s| < 2 then false
    else if IsTrailingSpace(s[0]) && s[1] == '\n' then true
    else
      assert forall i :: 1 <= i < |s| - 1 ==> s[i] == s[1..][i - 1] && s[i + 1] == s[1..][i];
      HasSpaceBeforeNewline(s[1..])
  }

  /** 1 when some space, tab, form feed or vertical tab is followed by a newline. */
  function VerifyTrailingWhitespace(f: string, content: string): (r: nat)
    ensures r <= 1
    ensures r == 1 <==> exists i :: 0 <= i < |content| - 1 && IsTrailingSpace(content[i]) && content[i + 1] == '\n'
  {
    if HasSpaceBeforeNewline(content) then 1 else 0
  }

  /** 1 when the text holds a tab. */
  function VerifyTabs(f: string, content: string): (r: nat)
    ensures r <= 1
    ensures r == 1 <==> '\t' in content
  {
    ContainsSingle(content, '\t');
    if Count(content, "\t") > 0 then 1 else 0
  }

  /** 1 when the text mentions `sprintf`. */
  function VerifySprintf(f: string, content: string): (r: nat)
    ensures r <= 1
    ensures r == 1 <==> Contains(content, "sprintf")
  {
    if Count(content, "sprintf") > 0 then 1 else 0
  }

  /** The file names verifyGetStringChars looks into. */
  predicate IsNativeSource(f: string) {
    EndsWith(f, ".cpp") || EndsWith(f, ".c") || EndsWith(f, ".h") || EndsWith(f, ".hpp")
  }

  /** 1 when a C/C++ source or header calls GetStringChars or GetStringUTFChars. */
  function VerifyGetStringChars(f: string, content: string): (r: nat)
    ensures r <= 1
    ensures r == 1 <==> IsNativeSource(f) && (Contains(content, "GetStringChars") || Contains(content, "GetStringUTFChars"))
  {
    if !IsNativeSource(f) then 0
    else
      var num := Count(content, "GetStringChars") + Count(content, "GetStringUTFChars");
      if num > 0 then 1 else 0
  }

  // ---------------------------------------------------------------------
  // Licence fixes

  /** `(preserve, rest) = s.split("\n", 1)`, keeping `preserve + "\n"`. */
  function KeepLine(s: string): (r: Run<(string, string)>)
    ensures r.Raises? <==> '\n' !in s
    ensures r.Raises? ==> r.error == ValueError
    ensures r.Returns? ==> r.value.0 + r.value.1 == s
  {
    match SplitOnce(s, '\n')
    case None => Raises(ValueError)
    case Some((line, rest)) => Returns((line + "\n", rest))
  }

  /**
   * The hashbang line and the coding line fixLicensePython keeps in front
   * (each with its newline), and the text after them.
   */
  function SplitHeader(content: string): (r: Run<(string, string)>)
    ensures r.Returns? ==> r.value.0 + r.value.1 == content
    ensures r.Raises? ==> r.error == ValueError
  {
    var bang := if StartsWith(content, "#!") then KeepLine(content) else Returns(([], content));
    match bang
    case Raises(e) => Raises(e)
    case Returns((preserved, revised)) =>
      if StartsWith(revised, "# -*-") then
        match KeepLine(revised)
        case Raises(e) => Raises(e)
        case Returns((coding, rest)) =>
          assert preserved + coding + rest == preserved + (coding + rest);
          Returns((preserved + coding, rest))
      else Returns((preserved, revised))
  }

  /**
   * fixLicensePython: keeps the hashbang and coding lines, then either
   * drops the whitespace before an approved licence or inserts the last
   * approved licence in front of the rest. The rest always gets the
   * licence inserted when it starts with `#`.
   */
  function FixLicensePython(content: string, approved: seq<string>): (r: Run<string>)
    ensures r.Raises? <==> SplitHeader(content).Raises? || approved == []
    ensures r.Returns? ==>
      var (kept, revised) := SplitHeader(content).value;
      StartsWith(r.value, kept) && EndsWith(r.value, LStrip(revised)) &&
      exists i :: 0 <= i < |approved| && StartsWith(r.value[|kept|..], approved[i])
    ensures SplitHeader(content).Returns? && StartsWith(SplitHeader(content).value.1, "#") && approved != [] ==>
      r == Returns(SplitHeader(content).value.0 + approved[|approved| - 1] + SplitHeader(content).value.1)
    ensures SplitHeader(content).Returns? && !StartsWith(SplitHeader(content).value.1, "#") &&
            LicenseStartsHere(LStrip(SplitHeader(content).value.1), approved) == 1 ==>
      r == Returns(SplitHeader(content).value.0 + LStrip(SplitHeader(content).value.1))
    ensures SplitHeader(content).Returns? && LicenseStartsHere(LStrip(SplitHeader(content).value.1), approved) != 1 &&
            approved != [] ==>
      r == Returns(SplitHeader(content).value.0 + approved[|approved| - 1] + SplitHeader(content).value.1)
  {
    match SplitHeader(content)
    case Raises(e) => Raises(e)
    case Returns((kept, revised)) => FixAfterHeader(kept, revised, approved)
  }

  /** The part of fixLicensePython after the kept header lines have been split off. */
  function FixAfterHeader(kept: string, revised: string, approved: seq<string>): (r: Run<string>)
    ensures r.Raises? <==> approved == []
    ensures r.Returns? ==>
      StartsWith(r.value, kept) && EndsWith(r.value, LStrip(revised)) &&
      exists i :: 0 <= i < |approved| && StartsWith(r.value[|kept|..], approved[i])
    ensures StartsWith(revised, "#") && approved != [] ==>
      r == Returns(kept + approved[|approved| - 1] + revised)
    ensures !StartsWith(revised, "#") && LicenseStartsHere(LStrip(revised), approved) == 1 ==>
      r == Returns(kept + LStrip(revised))
    ensures LicenseStartsHere(LStrip(revised), approved) != 1 && approved != [] ==>
      r == Returns(kept + approved[|approved| - 1] + revised)
  {
    var stripped := LStrip(revised);
    if !StartsWith(revised, "#") && LicenseStartsHere(stripped, approved) == 1 then
      Inserted(kept, [], stripped);
      assert kept + [] + stripped == kept + stripped;
      Returns(kept + stripped)
    else if approved == [] then Raises(IndexError)
    else
      var last := approved[|approved| - 1];
      Inserted(kept, last, revised);
      EndsWithTrans(kept + last + revised, revised, stripped);
      Returns(kept + last + revised)
  }

  /** The three parts of `front + middle + back` are where they were put. */
  lemma Inserted(front: string, middle: string, back: string)
    ensures StartsWith(front + middle + back, front)
    ensures StartsWith((front + middle + back)[|front|..], middle)
    ensures (front + middle + back)[|front|..] == middle + back
    ensures EndsWith(front + middle + back, back)
  {
    var s := front + middle + back;
    assert s[..|front|] == front;
    assert s[|front|..] == middle + back;
    assert (middle + back)[..|middle|] == middle;
    assert s[|s| - |back|..] == back;
  }

  /**
   * fixLicenseJavaC: drops the whitespace before an approved licence, or
   * inserts the last approved licence in front of the unchanged text.
   */
  function FixLicenseJavaC(content: string, approved: seq<string>): (r: Run<string>)
    ensures r.Raises? <==> approved == []
    ensures r.Returns? ==> EndsWith(r.value, LStrip(content))
    ensures r.Returns? ==> exists i :: 0 <= i < |approved| && StartsWith(r.value, approved[i])
    ensures LicenseStartsHere(LStrip(content), approved) == 1 ==> r == Returns(LStrip(content))
    ensures LicenseStartsHere(LStrip(content), approved) != 1 && approved != [] ==>
      r == Returns(approved[|approved| - 1] + content)
  {
    var stripped := LStrip(content);
    if LicenseStartsHere(stripped, approved) == 1 then
      assert stripped[|stripped| - |stripped|..] == stripped;
      Returns(stripped)
    else if approved == [] then Raises(IndexError)
    else
      var last := approved[|approved| - 1];
      Prepended(last, content);
      EndsWithTrans(last + content, content, stripped);
      Returns(last + content)
  }

  lemma StartsWithTrans(s: string, p: string, q: string)
    requires StartsWith(s, p) && StartsWith(p, q)
    ensures StartsWith(s, q)
  {
    assert s[..|q|] == s[..|p|][..|q|];
  }

  /** After the Java/C fix, the licence check passes, provided every approved licence opens a comment. */
  lemma FixLicenseJavaCRepairs(f: string, content: string, approvedJavaC: seq<string>, approvedPython: seq<string>)
    requires !EndsWith(f, ".py")
    requires forall i :: 0 <= i < |approvedJavaC| ==> StartsWith(approvedJavaC[i], "/*")
    requires FixLicenseJavaC(content, approvedJavaC).Returns?
    ensures VerifyLicense(f, FixLicenseJavaC(content, approvedJavaC).value, approvedJavaC, approvedPython) == Returns(0)
  {
    var fixed := FixLicenseJavaC(content, approvedJavaC).value;
    var i :| 0 <= i < |approvedJavaC| && StartsWith(fixed, approvedJavaC[i]);
    JavaCLicenseFound(f, fixed, approvedJavaC, approvedPython, i);
  }

  lemma JavaCLicenseFound(f: string, text: string, approvedJavaC: seq<string>, approvedPython: seq<string>, i: nat)
    requires !EndsWith(f, ".py")
    requires i < |approvedJavaC| && StartsWith(text, approvedJavaC[i]) && StartsWith(approvedJavaC[i], "/*")
    ensures VerifyLicense(f, text, approvedJavaC, approvedPython) == Returns(0)
  {
    StartsWithTrans(text, approvedJavaC[i], "/*");
  }

  /** A Python licence text that opens a comment and is not a hashbang or coding line. */
  predicate IsPlainPythonLicense(license: string) {
    |license| >= 5 && license[0] == '#' && license[1] != '!' && license[..5] != "# -*-"
  }

  lemma PlainLicenseStart(x: string, license: string)
    requires IsPlainPythonLicense(license) && StartsWith(x, license)
    ensures StartsWith(x, "#") && !StartsWith(x, "#!") && !StartsWith(x, "# -*-")
    ensures LStrip(x) == x
  {
    assert x[0] == license[0] && x[1] == license[1] && x[..5] == license[..5];
  }

  lemma {:induction false} SkipLineOf(line: string, rest: string)
    requires '\n' !in line
    ensures SkipLine(line + "\n" + rest) == Returns(LStrip(rest))
  {
    SplitOnceAt(line, rest, '\n');
  }

  /** A first line's text before its newline starts as the whole text does, for a newline-free prefix. */
  lemma FirstLineStarts(s: string, line: string, rest: string, p: string)
    requires s == line + "\n" + rest && '\n' !in line
    requires StartsWith(s, p) && '\n' !in p
    ensures StartsWith(line, p)
  {
    assert s[|line|] == '\n';
    assert forall k :: 0 <= k < |p| ==> s[k] == p[k];
    assert line[..|p|] == s[..|p|];
  }

  lemma LineThen(line: string, tail: string, p: string)
    requires StartsWith(line, p)
    ensures StartsWith(line + "\n" + tail, p)
  {
    assert (line + "\n" + tail)[..|p|] == line[..|p|];
  }

  /** A licence right after a coding line is what verifyLicense reads. */
  lemma CodingThenLicense(coding: string, x: string, license: string)
    requires '\n' !in coding && StartsWith(coding, "# -*-")
    requires IsPlainPythonLicense(license) && StartsWith(x, license)
    ensures StartsWith(coding + "\n" + x, "# -*-")
    ensures PythonLicenseText(coding + "\n" + x) == Returns(x)
  {
    PlainLicenseStart(x, license);
    LineThen(coding, x, "# -*-");
    var out := coding + "\n" + x;
    assert out[1] == ' ';
    SkipLineOf(coding, x);
  }

  /** A licence right after a hashbang line (and no coding line) is what verifyLicense reads. */
  lemma BangThenLicense(line: string, x: string, license: string)
    requires '\n' !in line && StartsWith(line, "#!")
    requires IsPlainPythonLicense(license) && StartsWith(x, license)
    ensures StartsWith(line + "\n" + x, "#!")
    ensures PythonLicenseText(line + "\n" + x) == Returns(x)
  {
    PlainLicenseStart(x, license);
    LineThen(line, x, "#!");
    SkipLineOf(line, x);
  }

  /** `lstrip()` leaves a coding line alone. */
  lemma CommentNotStripped(s: string)
    requires StartsWith(s, "# -*-")
    ensures LStrip(s) == s
  {
    assert s[0] == '#';
  }

  /** How PythonLicenseText goes on once a hashbang line has been skipped. */
  lemma AfterBang(content: string, text: string)
    requires StartsWith(content, "#!") && SkipLine(content) == Returns(text)
    ensures PythonLicenseText(content) == if StartsWith(text, "# -*-") then SkipLine(text) else Returns(text)
  {
  }

  /** A licence after a hashbang line and a coding line is what verifyLicense reads. */
  lemma BangCodingThenLicense(line: string, coding: string, x: string, license: string)
    requires '\n' !in line && StartsWith(line, "#!")
    requires '\n' !in coding && StartsWith(coding, "# -*-")
    requires IsPlainPythonLicense(license) && StartsWith(x, license)
    ensures StartsWith(line + "\n" + (coding + "\n" + x), "#!")
    ensures PythonLicenseText(line + "\n" + (coding + "\n" + x)) == Returns(x)
  {
    var tail := coding + "\n" + x;
    LineThen(coding, x, "# -*-");
    CommentNotStripped(tail);
    LineThen(line, tail, "#!");
    SkipLineOf(line, tail);
    SkipLineOf(coding, x);
    PlainLicenseStart(x, license);
    AfterBang(line + "\n" + tail, tail);
  }

  /** The lines SplitHeader keeps when the text opens with a hashbang line. */
  lemma BangHeader(content: string)
    requires StartsWith(content, "#!") && SplitHeader(content).Returns?
    ensures '\n' in content
    ensures var (line, rest) := SplitOnce(content, '\n').value;
      StartsWith(line, "#!") &&
      if StartsWith(rest, "# -*-") then
        '\n' in rest &&
        var (coding, _) := SplitOnce(rest, '\n').value;
        StartsWith(coding, "# -*-") && SplitHeader(content).value.0 == line + "\n" + (coding + "\n")
      else SplitHeader(content).value.0 == line + "\n"
  {
    var (line, rest) := SplitOnce(content, '\n').value;
    FirstLineStarts(content, line, rest, "#!");
    if StartsWith(rest, "# -*-") {
      var (coding, rest2) := SplitOnce(rest, '\n').value;
      FirstLineStarts(rest, coding, rest2, "# -*-");
    }
  }

  /** The line SplitHeader keeps when the text opens with a coding line. */
  lemma CodingHeader(content: string)
    requires !StartsWith(content, "#!") && StartsWith(content, "# -*-") && SplitHeader(content).Returns?
    ensures '\n' in content
    ensures var (coding, _) := SplitOnce(content, '\n').value;
      StartsWith(coding, "# -*-") && SplitHeader(content).value.0 == coding + "\n"
  {
    var (coding, rest) := SplitOnce(content, '\n').value;
    FirstLineStarts(content, coding, rest, "# -*-");
  }

  /** What SplitHeader keeps in front, followed by a plain licence, reads back as that licence. */
  lemma HeaderThenLicense(content: string, x: string, license: string)
    requires SplitHeader(content).Returns?
    requires IsPlainPythonLicense(license) && StartsWith(x, license)
    ensures StartsWith(SplitHeader(content).value.0 + x, "#")
    ensures PythonLicenseText(SplitHeader(content).value.0 + x) == Returns(x)
  {
    if StartsWith(content, "#!") {
      BangHeaderThenLicense(content, x, license);
    } else if StartsWith(content, "# -*-") {
      CodingHeaderThenLicense(content, x, license);
    } else {
      PlainLicenseStart(x, license);
      assert SplitHeader(content).value.0 + x == x;
    }
  }

  lemma BangHeaderThenLicense(content: string, x: string, license: string)
    requires StartsWith(content, "#!") && SplitHeader(content).Returns?
    requires IsPlainPythonLicense(license) && StartsWith(x, license)
    ensures StartsWith(SplitHeader(content).value.0 + x, "#")
    ensures PythonLicenseText(SplitHeader(content).value.0 + x) == Returns(x)
  {
    var kept := SplitHeader(content).value.0;
    BangHeader(content);
    var (line, rest) := SplitOnce(content, '\n').value;
    if StartsWith(rest, "# -*-") {
      var (coding, _) := SplitOnce(rest, '\n').value;
      KeptTwoLines(kept, line, coding, x, license);
    } else {
      assert kept + x == line + "\n" + x;
      BangThenLicense(line, x, license);
    }
    StartsWithTrans(kept + x, "#!", "#");
  }

  lemma KeptTwoLines(kept: string, line: string, coding: string, x: string, license: string)
    requires '\n' !in line && StartsWith(line, "#!")
    requires '\n' !in coding && StartsWith(coding, "# -*-")
    requires IsPlainPythonLicense(license) && StartsWith(x, license)
    requires kept == line + "\n" + (coding + "\n")
    ensures StartsWith(kept + x, "#!") && PythonLicenseText(kept + x) == Returns(x)
  {
    assert kept + x == line + "\n" + (coding + "\n" + x);
    BangCodingThenLicense(line, coding, x, license);
  }

  lemma CodingHeaderThenLicense(content: string, x: string, license: string)
    requires !StartsWith(content, "#!") && StartsWith(content, "# -*-") && SplitHeader(content).Returns?
    requires IsPlainPythonLicense(license) && StartsWith(x, license)
    ensures StartsWith(SplitHeader(content).value.0 + x, "#")
    ensures PythonLicenseText(SplitHeader(content).value.0 + x) == Returns(x)
  {
    var kept := SplitHeader(content).value.0;
    CodingHeader(content);
    var (coding, _) := SplitOnce(content, '\n').value;
    assert kept + x == coding + "\n" + x;
    CodingThenLicense(coding, x, license);
    StartsWithTrans(kept + x, "# -*-", "#");
  }

  /**
   * After the Python fix, the licence check passes, provided every approved
   * Python licence is a plain comment (not a hashbang or coding line).
   */
  lemma FixLicensePythonRepairs(f: string, content: string, approvedJavaC: seq<string>, approvedPython: seq<string>)
    requires EndsWith(f, ".py")
    requires forall i :: 0 <= i < |approvedPython| ==> IsPlainPythonLicense(approvedPython[i])
    requires FixLicensePython(content, approvedPython).Returns?
    ensures VerifyLicense(f, FixLicensePython(content, approvedPython).value, approvedJavaC, approvedPython) == Returns(0)
  {
    HeaderKeptThenLicense(f, content, FixLicensePython(content, approvedPython).value, approvedJavaC, approvedPython);
  }

  /** A text made of the kept header lines and then an approved plain licence passes the check. */
  lemma HeaderKeptThenLicense(f: string, content: string, fixed: string, approvedJavaC: seq<string>, approvedPython: seq<string>)
    requires EndsWith(f, ".py")
    requires forall i :: 0 <= i < |approvedPython| ==> IsPlainPythonLicense(approvedPython[i])
    requires SplitHeader(content).Returns?
    requires StartsWith(fixed, SplitHeader(content).value.0)
    requires exists i :: 0 <= i < |approvedPython| && StartsWith(fixed[|SplitHeader(content).value.0|..], approvedPython[i])
    ensures VerifyLicense(f, fixed, approvedJavaC, approvedPython) == Returns(0)
  {
    var kept := SplitHeader(content).value.0;
    var x := fixed[|kept|..];
    var i :| 0 <= i < |approvedPython| && StartsWith(x, approvedPython[i]);
    assert fixed == kept + x;
    HeaderThenLicense(content, x, approvedPython[i]);
    PythonLicenseFound(f, fixed, x, approvedJavaC, approvedPython, i);
  }

  /** A `.py` text opening a comment, whose header lines are followed by an approved licence, passes. */
  lemma PythonLicenseFound(f: string, text: string, x: string, approvedJavaC: seq<string>, approvedPython: seq<string>, i: nat)
    requires EndsWith(f, ".py") && StartsWith(text, "#") && PythonLicenseText(text) == Returns(x)
    requires i < |approvedPython| && StartsWith(x, approvedPython[i])
    ensures VerifyLicense(f, text, approvedJavaC, approvedPython) == Returns(0)
  {
  }

  // ---------------------------------------------------------------------
  // Whitespace fixes

  /** `"    "[(len(pre) % 4):4]`: the spaces that replace a tab found at column `col`. */
  function TabFill(col: nat): (fill: string)
    ensures 1 <= |fill| <= 4 && (col + |fill|) % 4 == 0
    ensures forall k :: 0 <= k < |fill| ==> fill[k] == ' '
  {
    "    "[col % 4..4]
  }

  /**
   * fixTabs's `while '\t' in line` loop on one line: the line's tab is
   * replaced by the spaces up to the next multiple-of-4 column; a line with
   * two or more tabs makes `(pre, post) = line.split('\t')` raise.
   */
  function ExpandTab(line: string): (r: Run<string>)
    ensures r.Raises? <==> exists i, j :: 0 <= i < j < |line| && line[i] == '\t' && line[j] == '\t'
    ensures r.Raises? ==> r.error == ValueError
    ensures r.Returns? ==> '\t' !in r.value
    ensures r.Returns? && '\n' !in line ==> '\n' !in r.value
    ensures r.Returns? && '\t' !in line ==> r.value == line
    ensures r.Returns? && '\t' in line ==>
      var (pre, post) := SplitOnce(line, '\t').value;
      r.value == pre + TabFill(|pre|) + post
  {
    if '\t' !in line then Returns(line)
    else
      var (pre, post) := SplitOnce(line, '\t').value;
      TwoTabs(line, pre, post);
      if '\t' in post then Raises(ValueError)
      else Returns(pre + TabFill(|pre|) + post)
  }

  /** A line holds two tabs exactly when the text after its first tab holds one. */
  lemma TwoTabs(line: string, pre: string, post: string)
    requires line == pre + "\t" + post && '\t' !in pre
    ensures (exists i, j :: 0 <= i < j < |line| && line[i] == '\t' && line[j] == '\t') <==> '\t' in post
  {
    if '\t' in post {
      var k :| 0 <= k < |post| && post[k] == '\t';
      assert line[|pre|] == '\t' && line[|pre| + 1 + k] == post[k];
    }
    if exists i, j :: 0 <= i < j < |line| && line[i] == '\t' && line[j] == '\t' {
      var i, j :| 0 <= i < j < |line| && line[i] == '\t' && line[j] == '\t';
      assert forall k :: 0 <= k < |pre| ==> line[k] == pre[k];
      assert post[j - |pre| - 1] == line[j];
    }
  }

  /**
   * What fixTabs makes of a text: a ValueError when some line has two
   * tabs, otherwise the lines, each with its tab expanded, joined again.
   */
  function TabsExpanded(content: string): Run<string> {
    var lines := SplitLines(content);
    if exists k :: 0 <= k < |lines| && ExpandTab(lines[k]).Raises? then Raises(ValueError)
    else Returns(JoinLines(seq(|lines|, k requires 0 <= k < |lines| && ExpandTab(lines[k]).Returns? =>
                                          ExpandTab(lines[k]).value)))
  }

  /**
   * fixTabs: every line's tab replaced by spaces up to the next
   * multiple-of-4 column, or a raised ValueError when some line has two.
   */
  method FixTabs(f: string, content: string) returns (r: Run<string>)
    ensures r == TabsExpanded(content)
    ensures r.Raises? <==> exists k :: 0 <= k < |SplitLines(content)| && ExpandTab(SplitLines(content)[k]).Raises?
    ensures r.Raises? ==> r.error == ValueError
    ensures r.Returns? ==> VerifyTabs(f, r.value) == 0
    ensures r.Returns? ==>
      |SplitLines(r.value)| == |SplitLines(content)| &&
      forall k :: 0 <= k < |SplitLines(content)| ==> ExpandTab(SplitLines(content)[k]) == Returns(SplitLines(r.value)[k])
  {
    var lines := SplitLines(content);
    var cleanLines: seq<string> := [];
    for i := 0 to |lines|
      invariant |cleanLines| == i
      invariant forall k :: 0 <= k < i ==> ExpandTab(lines[k]) == Returns(cleanLines[k])
    {
      var line := lines[i];
      while '\t' in line
        invariant line == lines[i] || ('\t' !in line && ExpandTab(lines[i]) == Returns(line))
        decreases if '\t' in line then 1 else 0
      {
        var (pre, post) := SplitOnce(line, '\t').value;
        if '\t' in post {
          assert line == lines[i] && ExpandTab(lines[i]).Raises?;
          assert 0 <= i < |SplitLines(content)| && ExpandTab(SplitLines(content)[i]).Raises?;
          return Raises(ValueError);
        }
        line := pre + TabFill(|pre|) + post;
      }
      cleanLines := cleanLines + [line];
    }
    assert forall k :: 0 <= k < |cleanLines| ==> '\n' !in cleanLines[k] && '\t' !in cleanLines[k];
    JoinLinesAvoids(cleanLines, '\t');
    SplitJoinLines(cleanLines);
    assert cleanLines == seq(|lines|, k requires 0 <= k < |lines| && ExpandTab(lines[k]).Returns? =>
                                        ExpandTab(lines[k]).value);
    r := Returns(JoinLines(cleanLines));
  }

  /**
   * `re.split(r'[\t\f\v ]+$', line)[0]`: the longest prefix of the line
   * that does not end in a space, tab, form feed or vertical tab.
   */
  function StripTrailing(line: string): (r: string)
    ensures |r| <= |line| && r == line[..|r|]
    ensures r == [] || !IsTrailingSpace(r[|r| - 1])
    ensures forall k :: |r| <= k < |line| ==> IsTrailingSpace(line[k])
  {
    if line != [] && IsTrailingSpace(line[|line| - 1]) then StripTrailing(line[..|line| - 1]) else line
  }

  /** Lines that end in no trailing-space character join into a text the check accepts. */
  lemma {:induction false} JoinStrippedLines(lines: seq<string>)
    requires |lines| >= 1
    requires forall k :: 0 <= k < |lines| ==> '\n' !in lines[k]
    requires forall k :: 0 <= k < |lines| ==> lines[k] == [] || !IsTrailingSpace(lines[k][|lines[k]| - 1])
    ensures !HasSpaceBeforeNewline(JoinLines(lines))
  {
    if |lines| > 1 {
      var a := lines[0];
      var t := JoinLines(lines[1..]);
      JoinStrippedLines(lines[1..]);
      var s := JoinLines(lines);
      assert s == a + "\n" + t;
      forall i | 0 <= i < |s| - 1
        ensures !(IsTrailingSpace(s[i]) && s[i + 1] == '\n')
      {
        if i + 1 < |a| {
          assert s[i + 1] == a[i + 1];
        } else if i + 1 == |a| {
          assert s[i] == a[|a| - 1];
        } else if i > |a| {
          assert s[i] == t[i - |a| - 1] && s[i + 1] == t[i - |a|];
        }
      }
    }
  }

  /** What fixTrailingWhitespace makes of a text: its lines, each stripped, joined again. */
  function TrailingWhitespaceStripped(content: string): string {
    var lines := SplitLines(content);
    JoinLines(seq(|lines|, k requires 0 <= k < |lines| => StripTrailing(lines[k])))
  }

  /** fixTrailingWhitespace: every line's trailing run of `[\t\f\v ]` removed. */
  method FixTrailingWhitespace(f: string, content: string) returns (r: string)
    ensures r == TrailingWhitespaceStripped(content)
    ensures |SplitLines(r)| == |SplitLines(content)|
    ensures forall k :: 0 <= k < |SplitLines(content)| ==> SplitLines(r)[k] == StripTrailing(SplitLines(content)[k])
    ensures VerifyTrailingWhitespace(f, r) == 0
  {
    var lines := SplitLines(content);
    var cleanLines: seq<string> := [];
    for i := 0 to |lines|
      invariant |cleanLines| == i
      invariant forall k :: 0 <= k < i ==> cleanLines[k] == StripTrailing(lines[k])
    {
      var line := lines[i];
      if line != [] && IsTrailingSpace(line[|line| - 1]) {
        line := StripTrailing(line);
      }
      cleanLines := cleanLines + [line];
    }
    assert forall k :: 0 <= k < |cleanLines| ==> '\n' !in cleanLines[k] by {
      forall k | 0 <= k < |cleanLines|
        ensures '\n' !in cleanLines[k]
      {
        assert cleanLines[k] == lines[k][..|cleanLines[k]|];
      }
    }
    SplitJoinLines(cleanLines);
    JoinStrippedLines(cleanLines);
    assert cleanLines == seq(|lines|, k requires 0 <= k < |lines| => StripTrailing(lines[k]));
    r := JoinLines(cleanLines);
  }

  // ---------------------------------------------------------------------
  // Per-file tally

  /** The file suffixes processFile looks at. */
  predicate IsCheckedFile(f: string) {
    EndsWith(f, ".java") || EndsWith(f, ".cpp") || EndsWith(f, ".cc") ||
    EndsWith(f, ".h") || EndsWith(f, ".hpp") || EndsWith(f, ".py")
  }

  /** `--fixall` sets the fix level above this; licences are fixed only there. */
  const FixLicensesLevel: nat := 2

  /** processFile's outcome: the exception a step raised, or the pair (fixed, found). */
  datatype Outcome = Raised(error: PyError) | Counted(fixed: nat, found: nat)

  /** The count one check of processFile adds to `found`, and the text after its fix. */
  datatype Checked = Checked(count: nat, text: string)

  /**
   * The licence step of processFile: the check's result and the text
   * after the licence fixer, which runs only when the check failed and
   * `fix` is above the licence fix level.
   */
  function LicensePass(f: string, fix: nat, text: string, approvedJavaC: seq<string>, approvedPython: seq<string>)
    : (r: Run<Checked>)
    ensures VerifyLicense(f, text, approvedJavaC, approvedPython).Raises? ==>
      r == Raises(VerifyLicense(f, text, approvedJavaC, approvedPython).error)
    ensures r.Returns? ==>
      VerifyLicense(f, text, approvedJavaC, approvedPython) == Returns(r.value.count) && r.value.count <= 1
    ensures r.Returns? && (r.value.count == 0 || fix <= FixLicensesLevel) ==> r.value.text == text
    ensures VerifyLicense(f, text, approvedJavaC, approvedPython).Returns? && fix <= FixLicensesLevel ==>
      r == Returns(Checked(VerifyLicense(f, text, approvedJavaC, approvedPython).value, text))
  {
    match VerifyLicense(f, text, approvedJavaC, approvedPython)
    case Raises(e) => Raises(e)
    case Returns(n) =>
      if n != 0 && fix > FixLicensesLevel then
        var repaired := if EndsWith(f, ".py") then FixLicensePython(text, approvedPython)
                        else FixLicenseJavaC(text, approvedJavaC);
        match repaired
        case Raises(e) => Raises(e)
        case Returns(t) => Returns(Checked(n, t))
      else Returns(Checked(n, text))
  }

  /** The tab step of processFile: the check's result and the text after fixTabs when fixing. */
  function TabPass(f: string, fix: nat, text: string): (r: Run<Checked>)
    ensures r.Raises? ==> r.error == ValueError && fix != 0 && VerifyTabs(f, text) == 1
    ensures r.Returns? ==> r.value.count == VerifyTabs(f, text)
    ensures r.Returns? && (r.value.count == 0 || fix == 0) ==> r.value.text == text
    ensures fix == 0 ==> r == Returns(Checked(VerifyTabs(f, text), text))
  {
    var n := VerifyTabs(f, text);
    if n != 0 && fix != 0 then
      match TabsExpanded(text)
      case Raises(e) => Raises(e)
      case Returns(t) => Returns(Checked(n, t))
    else Returns(Checked(n, text))
  }

  /** The trailing-whitespace step of processFile: the check's result and the text after the fix when fixing. */
  function WhitespacePass(f: string, fix: nat, text: string): (r: Checked)
    ensures r.count == VerifyTrailingWhitespace(f, text)
    ensures r.count == 0 || fix == 0 ==> r.text == text
  {
    var n := VerifyTrailingWhitespace(f, text);
    Checked(n, if n != 0 && fix != 0 then TrailingWhitespaceStripped(text) else text)
  }

  /**
   * processFile after the licence and tab steps: the trailing-whitespace
   * step runs on the text the tab step left, the sprintf and
   * GetStringChars checks on the final text, and the pair (fixed, found)
   * adds up the five counts.
   */
  function TallyAfter(f: string, fix: nat, license: Checked, tabs: Checked): Outcome {
    var spaces := WhitespacePass(f, fix, tabs.text);
    var fixed := (if fix > FixLicensesLevel then license.count else 0) +
                 (if fix != 0 then tabs.count + spaces.count else 0);
    var found := license.count + tabs.count + spaces.count +
                 VerifySprintf(f, spaces.text) + VerifyGetStringChars(f, spaces.text);
    Counted(fixed, found)
  }

  /** processFile after the licence step: an exception of the tab step is the result. */
  function AfterLicense(f: string, fix: nat, license: Checked): Outcome {
    match TabPass(f, fix, license.text)
    case Raises(e) => Raised(e)
    case Returns(tabs) => TallyAfter(f, fix, license, tabs)
  }

  /**
   * processFile as a value: the pair (fixed, found) after the licence,
   * tab and trailing-whitespace steps, each run on the text the step
   * before it left, and the sprintf and GetStringChars checks on the
   * final text; an exception any step raises is the result.
   */
  function ProcessText(f: string, fix: nat, content: string, approvedJavaC: seq<string>, approvedPython: seq<string>)
    : Outcome
  {
    if !IsCheckedFile(f) then Counted(0, 0)
    else
      match LicensePass(f, fix, content, approvedJavaC, approvedPython)
      case Raises(e) => Raised(e)
      case Returns(license) => AfterLicense(f, fix, license)
  }

  /** ProcessText once the licence step's outcome is known. */
  lemma ProcessTextLicensed(f: string, fix: nat, content: string, approvedJavaC: seq<string>, approvedPython: seq<string>,
                            license: Checked)
    requires IsCheckedFile(f)
    requires LicensePass(f, fix, content, approvedJavaC, approvedPython) == Returns(license)
    ensures ProcessText(f, fix, content, approvedJavaC, approvedPython) == AfterLicense(f, fix, license)
  {
  }

  /** AfterLicense once the tab and trailing-whitespace steps' outcomes are known. */
  lemma AfterLicenseTally(f: string, fix: nat, license: Checked, tabs: Checked, spaces: Checked, fixed: nat, found: nat)
    requires TabPass(f, fix, license.text) == Returns(tabs)
    requires WhitespacePass(f, fix, tabs.text) == spaces
    requires fixed == (if fix > FixLicensesLevel then license.count else 0) +
                      (if fix != 0 then tabs.count + spaces.count else 0)
    requires found == license.count + tabs.count + spaces.count +
                      VerifySprintf(f, spaces.text) + VerifyGetStringChars(f, spaces.text)
    ensures AfterLicense(f, fix, license) == Counted(fixed, found)
  {
  }

  /**
   * The bounds on processFile's pair: `fixed` never exceeds `found`,
   * which is at most one per check; without licence fixing at most the
   * tab and whitespace failures are fixed, and with it only the sprintf
   * and GetStringChars failures can be left unfixed.
   */
  lemma ProcessTextBounds(f: string, fix: nat, content: string, approvedJavaC: seq<string>, approvedPython: seq<string>)
    ensures ProcessText(f, fix, content, approvedJavaC, approvedPython).Counted? ==>
      var t := ProcessText(f, fix, content, approvedJavaC, approvedPython);
      t.fixed <= t.found <= 5 &&
      (fix <= FixLicensesLevel ==> t.fixed <= 2) &&
      (fix > FixLicensesLevel ==> t.found <= t.fixed + 2)
  {
    if IsCheckedFile(f) {
      var licensed := LicensePass(f, fix, content, approvedJavaC, approvedPython);
      if licensed.Returns? {
        var tabbed := TabPass(f, fix, licensed.value.text);
        if tabbed.Returns? {
          assert ProcessText(f, fix, content, approvedJavaC, approvedPython) ==
                 TallyAfter(f, fix, licensed.value, tabbed.value);
        }
      }
    }
  }

  /**
   * A file that is not checked yields (0, 0); an exception of the
   * licence check is processFile's result, whatever `fix` asks for.
   */
  lemma ProcessTextRaises(f: string, fix: nat, content: string, approvedJavaC: seq<string>, approvedPython: seq<string>)
    ensures !IsCheckedFile(f) ==> ProcessText(f, fix, content, approvedJavaC, approvedPython) == Counted(0, 0)
    ensures IsCheckedFile(f) && VerifyLicense(f, content, approvedJavaC, approvedPython).Raises? ==>
      ProcessText(f, fix, content, approvedJavaC, approvedPython) == Raised(VerifyLicense(f, content, approvedJavaC, approvedPython).error)
  {
    if IsCheckedFile(f) {
      var licensed := LicensePass(f, fix, content, approvedJavaC, approvedPython);
      if licensed.Returns? {
        var tabbed := TabPass(f, fix, licensed.value.text);
        if tabbed.Returns? {
          assert ProcessText(f, fix, content, approvedJavaC, approvedPython) ==
                 TallyAfter(f, fix, licensed.value, tabbed.value);
        }
      }
    }
  }

  /** Without fixing, processFile counts the five checks on the unchanged text. */
  lemma ProcessTextNoFix(f: string, fix: nat, content: string, approvedJavaC: seq<string>, approvedPython: seq<string>)
    ensures IsCheckedFile(f) && fix == 0 && VerifyLicense(f, content, approvedJavaC, approvedPython).Returns? ==>
      ProcessText(f, fix, content, approvedJavaC, approvedPython) ==
        Counted(0, VerifyLicense(f, content, approvedJavaC, approvedPython).value +
                   VerifyTabs(f, content) + VerifyTrailingWhitespace(f, content) +
                   VerifySprintf(f, content) + VerifyGetStringChars(f, content))
  {
    if IsCheckedFile(f) && fix == 0 && VerifyLicense(f, content, approvedJavaC, approvedPython).Returns? {
      var licensed := LicensePass(f, fix, content, approvedJavaC, approvedPython);
      var tabbed := TabPass(f, fix, content);
      assert licensed.value.text == content && tabbed.value.text == content;
      assert ProcessText(f, fix, content, approvedJavaC, approvedPython) ==
             TallyAfter(f, fix, licensed.value, tabbed.value);
    }
  }

  /** processFile finds nothing exactly when all five checks pass on the file's text. */
  lemma ProcessTextClean(f: string, fix: nat, content: string, approvedJavaC: seq<string>, approvedPython: seq<string>)
    ensures IsCheckedFile(f) && ProcessText(f, fix, content, approvedJavaC, approvedPython).Counted? ==>
      (ProcessText(f, fix, content, approvedJavaC, approvedPython).found == 0 <==>
         VerifyLicense(f, content, approvedJavaC, approvedPython) == Returns(0) &&
         VerifyTabs(f, content) == 0 && VerifyTrailingWhitespace(f, content) == 0 &&
         VerifySprintf(f, content) == 0 && VerifyGetStringChars(f, content) == 0)
  {
    if IsCheckedFile(f) {
      var licensed := LicensePass(f, fix, content, approvedJavaC, approvedPython);
      if licensed.Returns? {
        var tabbed := TabPass(f, fix, licensed.value.text);
        if tabbed.Returns? {
          assert ProcessText(f, fix, content, approvedJavaC, approvedPython) ==
                 TallyAfter(f, fix, licensed.value, tabbed.value);
        }
      }
    }
  }

  /**
   * The licence step of processFile: the check's result, and the text
   * after the licence fix, which runs only on a failed check above the
   * licence fix level; `raised` holds the exception the check or the fix
   * raised, if any.
   */
  method LicenseStep(f: string, fix: nat, text: string, approvedJavaC: seq<string>, approvedPython: seq<string>)
    returns (raised: Option<PyError>, license: nat, out: string)
    ensures raised.Some? <==> LicensePass(f, fix, text, approvedJavaC, approvedPython).Raises?
    ensures raised.Some? ==> raised.value == LicensePass(f, fix, text, approvedJavaC, approvedPython).error
    ensures raised.None? ==>
      license == LicensePass(f, fix, text, approvedJavaC, approvedPython).value.count &&
      out == LicensePass(f, fix, text, approvedJavaC, approvedPython).value.text
    ensures VerifyLicense(f, text, approvedJavaC, approvedPython).Raises? ==>
      raised == Some(VerifyLicense(f, text, approvedJavaC, approvedPython).error)
    ensures raised.None? ==> VerifyLicense(f, text, approvedJavaC, approvedPython) == Returns(license)
    ensures VerifyLicense(f, text, approvedJavaC, approvedPython).Returns? ==>
      (license == 0 || fix <= FixLicensesLevel ==> raised.None? && out == text)
  {
    var check := VerifyLicense(f, text, approvedJavaC, approvedPython);
    if check.Raises? {
      return Some(check.error), 0, text;
    }
    license, out := check.value, text;
    if license != 0 && fix > FixLicensesLevel {
      var repaired := if EndsWith(f, ".py") then FixLicensePython(text, approvedPython)
                      else FixLicenseJavaC(text, approvedJavaC);
      if repaired.Raises? {
        return Some(repaired.error), license, text;
      }
      out := repaired.value;
    }
    raised := None;
  }

  /** The tab step of processFile: the check's result, and the text after fixTabs when fixing. */
  method TabStep(f: string, fix: nat, text: string) returns (raised: Option<PyError>, tabs: nat, out: string)
    ensures tabs == VerifyTabs(f, text)
    ensures raised.Some? <==> TabPass(f, fix, text).Raises?
    ensures raised.Some? ==> raised.value == TabPass(f, fix, text).error == ValueError
    ensures raised.None? ==> out == TabPass(f, fix, text).value.text
    ensures fix == 0 || tabs == 0 ==> raised.None? && out == text
    ensures raised.None? && out != text ==>
      VerifyTabs(f, out) == 0 && |SplitLines(out)| == |SplitLines(text)| &&
      forall k :: 0 <= k < |SplitLines(text)| ==> ExpandTab(SplitLines(text)[k]) == Returns(SplitLines(out)[k])
  {
    tabs, out, raised := VerifyTabs(f, text), text, None;
    if tabs != 0 && fix != 0 {
      var expanded := FixTabs(f, text);
      if expanded.Raises? {
        return Some(expanded.error), tabs, text;
      }
      out := expanded.value;
    }
  }

  /** The trailing-whitespace step of processFile: the check's result, and the text after the fix when fixing. */
  method TrailingWhitespaceStep(f: string, fix: nat, text: string) returns (spaces: nat, out: string)
    ensures spaces == VerifyTrailingWhitespace(f, text)
    ensures out == WhitespacePass(f, fix, text).text
    ensures fix == 0 || spaces == 0 ==> out == text
    ensures out != text ==>
      VerifyTrailingWhitespace(f, out) == 0 && |SplitLines(out)| == |SplitLines(text)| &&
      forall k :: 0 <= k < |SplitLines(text)| ==> SplitLines(out)[k] == StripTrailing(SplitLines(text)[k])
  {
    spaces, out := VerifyTrailingWhitespace(f, text), text;
    if spaces != 0 && fix != 0 {
      out := FixTrailingWhitespace(f, text);
    }
  }

  /**
   * processFile after the licence step: the tab and trailing-whitespace
   * steps, each fixing when `fix` asks for it, then the sprintf and
   * GetStringChars checks on the final text; `fixed` and `found` start
   * from what the licence step added.
   */
  method FormattingSteps(f: string, fix: nat, license: Checked) returns (r: Outcome)
    ensures r == AfterLicense(f, fix, license)
  {
    var fixed := if fix > FixLicensesLevel then license.count else 0;
    var found := license.count;

    var tabsRaised, tabs, text2 := TabStep(f, fix, license.text);
    if tabsRaised.Some? {
      return Raised(tabsRaised.value);
    }
    if tabs != 0 {
      if fix != 0 {
        fixed := fixed + tabs;
      }
      found := found + tabs;
    }

    var spaces, text3 := TrailingWhitespaceStep(f, fix, text2);
    if spaces != 0 {
      if fix != 0 {
        fixed := fixed + spaces;
      }
      found := found + spaces;
    }

    found := found + VerifySprintf(f, text3);
    found := found + VerifyGetStringChars(f, text3);
    AfterLicenseTally(f, fix, license, Checked(tabs, text2), Checked(spaces, text3), fixed, found);
    r := Counted(fixed, found);
  }

  /**
   * processFile on a file's text: runs the five checks in order, fixing
   * along the way when `fix` asks for it, and returns the pair
   * (fixed, found) or the exception a step raised.
   */
  method ProcessFile(f: string, fix: nat, content: string, approvedJavaC: seq<string>, approvedPython: seq<string>)
    returns (r: Outcome)
    ensures r == ProcessText(f, fix, content, approvedJavaC, approvedPython)
    ensures !IsCheckedFile(f) ==> r.Counted? && r.fixed == 0 && r.found == 0
    ensures r.Counted? ==> r.fixed <= r.found <= 5
    ensures r.Counted? && fix <= FixLicensesLevel ==> r.fixed <= 2
    ensures r.Counted? && fix > FixLicensesLevel ==> r.found <= r.fixed + 2
    ensures IsCheckedFile(f) && VerifyLicense(f, content, approvedJavaC, approvedPython).Raises? ==>
      r == Raised(VerifyLicense(f, content, approvedJavaC, approvedPython).error)
    ensures IsCheckedFile(f) && fix == 0 && VerifyLicense(f, content, approvedJavaC, approvedPython).Returns? ==>
      r.Counted? && r.fixed == 0 &&
      r.found == VerifyLicense(f, content, approvedJavaC, approvedPython).value +
                   VerifyTabs(f, content) + VerifyTrailingWhitespace(f, content) +
                   VerifySprintf(f, content) + VerifyGetStringChars(f, content)
    ensures IsCheckedFile(f) && r.Counted? ==>
      (r.found == 0 <==>
         VerifyLicense(f, content, approvedJavaC, approvedPython) == Returns(0) &&
         VerifyTabs(f, content) == 0 && VerifyTrailingWhitespace(f, content) == 0 &&
         VerifySprintf(f, content) == 0 && VerifyGetStringChars(f, content) == 0)
  {
    if !IsCheckedFile(f) {
      r := Counted(0, 0);
    } else {
      var raised, license, text := LicenseStep(f, fix, content, approvedJavaC, approvedPython);
      if raised.Some? {
        r := Raised(raised.value);
      } else {
        ProcessTextLicensed(f, fix, content, approvedJavaC, approvedPython, Checked(license, text));
        r := FormattingSteps(f, fix, Checked(license, text));
      }
    }
    ProcessTextBounds(f, fix, content, approvedJavaC, approvedPython);
    ProcessTextRaises(f, fix, content, approvedJavaC, approvedPython);
    ProcessTextNoFix(f, fix, content, approvedJavaC, approvedPython);
    ProcessTextClean(f, fix, content, approvedJavaC, approvedPython);
  }

}
