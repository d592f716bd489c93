/** The format-version triple written into the header of every audit log, taken from the
    platform's release string when logging starts. */
module AicsVersion {
  import opened JavaTypes
  import opened JavaText

  /** The (short, byte, byte) triple the log is created with. */
  datatype FormatVersion = FormatVersion(major: Int16, minor: Int8, patch: Int8)

  const UNKNOWN_VERSION := FormatVersion(0, 0, 0)

  predicate IsShort(n: int) { -0x8000 <= n < 0x8000 }
  predicate IsByte(n: int) { -0x80 <= n < 0x80 }

  /** The switch on the number of release components. A single component is the major number; two
      are major and minor with the patch number set to 1 (not 0); three are major, minor and patch;
      any other number of components, or any component that does not parse into its width, gives
      the all-zero version. */
  function VersionOf(components: seq<string>): (v: FormatVersion)
    ensures v != UNKNOWN_VERSION ==> 1 <= |components| <= 3 && ParseShort(components[0]) == Some(v.major)
    ensures v != UNKNOWN_VERSION && |components| >= 2 ==> ParseByte(components[1]) == Some(v.minor)
    ensures v != UNKNOWN_VERSION && |components| == 1 ==> v.minor == 0 && v.patch == 0
    ensures v != UNKNOWN_VERSION && |components| == 2 ==> v.patch == 1
    ensures v != UNKNOWN_VERSION && |components| == 3 ==> ParseByte(components[2]) == Some(v.patch)
  {
    if |components| == 1 then
      match ParseShort(components[0])
      case Some(major) => FormatVersion(major, 0, 0)
      case None => UNKNOWN_VERSION
    else if |components| == 2 then
      match (ParseShort(components[0]), ParseByte(components[1]))
      case (Some(major), Some(minor)) => FormatVersion(major, minor, 1)
      case _ => UNKNOWN_VERSION
    else if |components| == 3 then
      match (ParseShort(components[0]), ParseByte(components[1]), ParseByte(components[2]))
      case (Some(major), Some(minor), Some(patch)) => FormatVersion(major, minor, patch)
      case _ => UNKNOWN_VERSION
    else
      UNKNOWN_VERSION
  }

  /** The version header as the release string is split in the source: with the regular
      expression `.`, which matches every character. */
  function ReleaseVersionAsWritten(release: string): FormatVersion
  {
    VersionOf(Split(AnyButLineTerminator, release))
  }

  /** The version header with the release string split at each literal `.`, as evidently intended. */
  function ReleaseVersion(release: string): FormatVersion
  {
    VersionOf(Split(Literal('.'), release))
  }

  /** The switch on rendered numbers: each count of components maps as described, and a number out
      of its field's range sends the whole header to zero. */
  lemma VersionOfRendered(a: int, b: int, c: int)
    ensures VersionOf([ShowInt(a)]) ==
      if IsShort(a) then FormatVersion(a, 0, 0) else UNKNOWN_VERSION
    ensures VersionOf([ShowInt(a), ShowInt(b)]) ==
      if IsShort(a) && IsByte(b) then FormatVersion(a, b, 1) else UNKNOWN_VERSION
    ensures VersionOf([ShowInt(a), ShowInt(b), ShowInt(c)]) ==
      if IsShort(a) && IsByte(b) && IsByte(c) then FormatVersion(a, b, c) else UNKNOWN_VERSION
  {
    ParseShortShowInt(a);
    ParseByteShowInt(b);
    ParseByteShowInt(c);
  }

  /** No rendered integer contains a dot. */
  lemma ShowIntDotFree(n: int)
    ensures forall i :: 0 <= i < |ShowInt(n)| ==> !Matches(Literal('.'), ShowInt(n)[i])
  {
  }

  /** With a literal-dot split, the release strings "a", "a.b" and "a.b.c" give the mapped triple. */
  lemma ReleaseVersionDotted(a: int, b: int, c: int)
    ensures ReleaseVersion(ShowInt(a)) ==
      if IsShort(a) then FormatVersion(a, 0, 0) else UNKNOWN_VERSION
    ensures ReleaseVersion(ShowInt(a) + "." + ShowInt(b)) ==
      if IsShort(a) && IsByte(b) then FormatVersion(a, b, 1) else UNKNOWN_VERSION
    ensures ReleaseVersion(ShowInt(a) + "." + ShowInt(b) + "." + ShowInt(c)) ==
      if IsShort(a) && IsByte(b) && IsByte(c) then FormatVersion(a, b, c) else UNKNOWN_VERSION
  {
    ShowIntDotFree(a);
    ShowIntDotFree(b);
    ShowIntDotFree(c);
    SplitOne(Literal('.'), ShowInt(a));
    SplitTwo(Literal('.'), ShowInt(a), ShowInt(b), '.');
    SplitThree(Literal('.'), ShowInt(a), ShowInt(b), ShowInt(c), '.');
    VersionOfRendered(a, b, c);
  }

  /** The release strings "7", "7.1" and "7.1.2" under the literal-dot split. */
  lemma ReleaseVersionExamples()
    ensures ReleaseVersion("7") == FormatVersion(7, 0, 0)
    ensures ReleaseVersion("7.1") == FormatVersion(7, 1, 1)
    ensures ReleaseVersion("7.1.2") == FormatVersion(7, 1, 2)
  {
    var seven, one, two := ShowInt(7), ShowInt(1), ShowInt(2);
    assert seven == "7" && one == "1" && two == "2";
    assert seven + "." + one == "7.1";
    assert seven + "." + one + "." + two == "7.1.2";
    ReleaseVersionDotted(7, 1, 2);
  }

  /** The release strings "" and "x.y" under the literal-dot split have no number to read. */
  lemma ReleaseVersionUnparsable()
    ensures ReleaseVersion("") == UNKNOWN_VERSION
    ensures ReleaseVersion("x.y") == UNKNOWN_VERSION
  {
    SplitTwo(Literal('.'), "x", "y", '.');
    assert "x" + ['.'] + "y" == "x.y";
    assert DigitsValue("x").None?;
  }

  /** As written, every release string free of line terminators — every real release name —
      yields the all-zero header: a non-empty one splits into no components at all, and the empty
      one into a single empty component that does not parse. */
  lemma AsWrittenAlwaysUnknown(release: string)
    requires forall i :: 0 <= i < |release| ==> !IsLineTerminator(release[i])
    ensures ReleaseVersionAsWritten(release) == UNKNOWN_VERSION
  {
    RegexDotSplit(release);
  }

  /** The release string "7.1.2" shows the discrepancy. */
  lemma AsWrittenDiffers()
    ensures ReleaseVersionAsWritten("7.1.2") == UNKNOWN_VERSION
    ensures ReleaseVersion("7.1.2") == FormatVersion(7, 1, 2)
  {
    AsWrittenAlwaysUnknown("7.1.2");
    ReleaseVersionExamples();
  }
}
