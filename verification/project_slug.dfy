/**
 * The slug the new-project form proposes as the name is typed: lower-case the name, drop every
 * character other than `[a-z0-9]`, white space and `-`, turn each run of white space into one
 * `-`, squeeze each run of `-` to one, and keep at most the first 50 characters.
 */
module ProjectSlug {
  import opened Seqs
  import opened ProjectSchema

  const MaxSlugLength := 50

  /** `String.prototype.toLowerCase` on ASCII letters; other characters are left as they are. */
  function ToLower(s: string): (r: string)
    ensures |r| == |s|
    ensures forall i | 0 <= i < |s| :: r[i] == (if 'A' <= s[i] <= 'Z' then (s[i] as int + 32) as char else s[i])
  {
    seq(|s|, i requires 0 <= i < |s| => if 'A' <= s[i] <= 'Z' then (s[i] as int + 32) as char else s[i])
  }

  /**
   * The regular-expression class `\s`: the ASCII spaces and controls tab through carriage
   * return, the no-break and other Unicode space separators, the line and paragraph
   * separators, and the byte-order mark.
   */
  predicate IsSpace(c: char) {
    c == ' ' || ('\t' <= c <= '\r')
    || c as int == 0xA0 || c as int == 0x1680 || (0x2000 <= c as int <= 0x200A)
    || c as int == 0x2028 || c as int == 0x2029 || c as int == 0x202F || c as int == 0x205F
    || c as int == 0x3000 || c as int == 0xFEFF
  }

  predicate IsHyphen(c: char) {
    c == '-'
  }

  /** What the first replacement keeps: `[a-z0-9\s-]`. */
  predicate Kept(c: char) {
    SlugChar(c) || IsSpace(c)
  }

  /** `s` with its leading run of `p`-characters removed. */
  function DropRun(s: string, p: char -> bool): (r: string)
    ensures |r| <= |s| && r == s[|s| - |r|..]
    ensures |s| > 0 && p(s[0]) ==> |r| < |s|
    ensures |r| > 0 ==> !p(r[0])
    ensures forall i | 0 <= i < |s| - |r| :: p(s[i])
    decreases |s|
  {
    if |s| > 0 && p(s[0]) then
      var r := DropRun(s[1..], p);
      assert forall i | 1 <= i < |s| - |r| :: s[i] == s[1..][i - 1];
      r
    else s
  }

  /**
   * Replaces every maximal run of `p`-characters by one `-` (`replace(/P+/g, "-")`). The first
   * character of the result is `-` when `s` starts a run and `s[0]` otherwise.
   */
  function Squeeze(s: string, p: char -> bool): (r: string)
    ensures |r| <= |s|
    ensures |s| == 0 <==> |r| == 0
    ensures |s| > 0 ==> r[0] == (if p(s[0]) then '-' else s[0])
    ensures forall i | 0 <= i < |r| :: r[i] == '-' || (r[i] in s && !p(r[i]))
    decreases |s|
  {
    if |s| == 0 then ""
    else if p(s[0]) then "-" + Squeeze(DropRun(s, p), p)
    else [s[0]] + Squeeze(s[1..], p)
  }

  /** No `-` directly follows another. */
  predicate NoDoubleHyphen(s: string) {
    forall i | 0 <= i < |s| - 1 :: !(s[i] == '-' && s[i + 1] == '-')
  }

  /** Squeezing hyphen runs leaves no two hyphens side by side. */
  lemma {:induction false} SqueezedHyphensAreSingle(s: string)
    ensures NoDoubleHyphen(Squeeze(s, IsHyphen))
    decreases |s|
  {
    if |s| > 0 {
      var r := Squeeze(s, IsHyphen);
      if IsHyphen(s[0]) {
        var t := DropRun(s, IsHyphen);
        SqueezedHyphensAreSingle(t);
        assert r == "-" + Squeeze(t, IsHyphen);
      } else {
        SqueezedHyphensAreSingle(s[1..]);
        assert r == [s[0]] + Squeeze(s[1..], IsHyphen);
      }
    }
  }

  /** A string with no `p`-character is left alone. */
  lemma {:induction false} SqueezeWithoutRuns(s: string, p: char -> bool)
    requires forall i | 0 <= i < |s| :: !p(s[i])
    ensures Squeeze(s, p) == s
    decreases |s|
  {
    if |s| > 0 {
      SqueezeWithoutRuns(s[1..], p);
      assert s == [s[0]] + s[1..];
    }
  }

  /** Single hyphens are left alone. */
  lemma {:induction false} SqueezeSingleHyphens(s: string)
    requires NoDoubleHyphen(s)
    ensures Squeeze(s, IsHyphen) == s
    decreases |s|
  {
    if |s| > 0 {
      assert NoDoubleHyphen(s[1..]);
      SqueezeSingleHyphens(s[1..]);
      if IsHyphen(s[0]) {
        assert DropRun(s, IsHyphen) == s[1..];
      }
      assert s == [s[0]] + s[1..];
    }
  }

  /** `substring(0, 50)`: the first 50 characters, or all of a shorter string. */
  function Truncate(s: string): (r: string)
    ensures |r| <= MaxSlugLength && |r| <= |s|
    ensures |s| <= MaxSlugLength ==> r == s
    ensures forall i | 0 <= i < |r| :: r[i] == s[i]
    ensures |r| == 0 <==> |s| == 0
  {
    if |s| <= MaxSlugLength then s else s[..MaxSlugLength]
  }

  /** The white-space runs of the filtered, lower-cased name, each turned into `-`. */
  function Dashed(name: string): string {
    Squeeze(Filter(ToLower(name), Kept), IsSpace)
  }

  /** `handleNameChange`'s slug for `name`. */
  function Slugify(name: string): (r: string)
    ensures |r| <= MaxSlugLength
    ensures AllSlugChars(r)
    ensures NoDoubleHyphen(r)
  {
    var single := Squeeze(Dashed(name), IsHyphen);
    SqueezedHyphensAreSingle(Dashed(name));
    Truncate(single)
  }

  /** A proposed slug proposes itself: running the generator on its own output changes nothing. */
  lemma {:induction false} SlugifyIsIdempotent(name: string)
    ensures Slugify(Slugify(name)) == Slugify(name)
  {
    var s := Slugify(name);
    assert ToLower(s) == s;
    FilterKeepsAll(s, Kept);
    SqueezeWithoutRuns(s, IsSpace);
    SqueezeSingleHyphens(s);
  }

  /** A non-empty proposal always satisfies the project slug rules; an empty one never does. */
  lemma SlugifyMeetsSchema(name: string)
    ensures Slugify(name) != "" <==> SlugIssues(Slugify(name)) == []
  {}

  /**
   * The proposal is empty exactly when the name holds no Latin letter, digit, white space or
   * hyphen: a name written wholly in another script proposes nothing.
   */
  lemma {:induction false} EmptyProposal(name: string)
    ensures Slugify(name) == "" <==> forall i | 0 <= i < |name| :: !Kept(ToLower(name)[i])
  {
    var lowered := ToLower(name);
    var kept := Filter(lowered, Kept);
    assert |Slugify(name)| == 0 <==> |Squeeze(Dashed(name), IsHyphen)| == 0;
    assert |Dashed(name)| == 0 <==> |kept| == 0;
    if kept == [] {
      forall i | 0 <= i < |name| ensures !Kept(lowered[i]) {
        assert lowered[i] in lowered;
      }
    } else {
      assert kept[0] in lowered && Kept(kept[0]);
    }
  }

  /** There is no trimming: a name that starts with white space proposes a slug that starts with a hyphen. */
  lemma {:induction false} LeadingSpaceProposesHyphen(name: string)
    requires |name| > 0 && IsSpace(name[0])
    ensures |Slugify(name)| > 0 && Slugify(name)[0] == '-'
  {
    var lowered := ToLower(name);
    assert lowered[0] == name[0];
    assert lowered == [lowered[0]] + lowered[1..];
    var kept := Filter(lowered, Kept);
    assert kept == [lowered[0]] + Filter(lowered[1..], Kept);
    assert Dashed(name)[0] == '-';
    assert Squeeze(Dashed(name), IsHyphen)[0] == '-';
  }
}
