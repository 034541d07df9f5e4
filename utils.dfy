/** The owner check and the code-fence cleanup applied to JSON input. */
module Utils {
  import opened Discord

  /** `_check_owner`: outside a guild everyone passes; inside one, only the
      guild's owner does. */
  function CheckOwner(ctx: Context): (r: bool)
    ensures ctx.guild.None? ==> r
    ensures ctx.guild.Some? ==> (r <==> ctx.author == ctx.guild.value.ownerId)
  {
    if ctx.guild.None? then true
    else if ctx.author != ctx.guild.value.ownerId then false
    else true
  }

  const Fence := "```"
  const JsonFence := "```json"

  /** The characters `content.strip("` \n")` removes. */
  const StripChars: set<char> := {'`', ' ', '\n'}

  /** `\s` of a Python `str` pattern: the characters `str.isspace` accepts. */
  predicate IsRegexSpace(c: char) {
    || '\t' <= c <= '\r'
    || '\U{1C}' <= c <= '\U{1F}'
    || c == ' '
    || c == '\U{85}'
    || c == '\U{A0}'
    || c == '\U{1680}'
    || '\U{2000}' <= c <= '\U{200A}'
    || c == '\U{2028}'
    || c == '\U{2029}'
    || c == '\U{202F}'
    || c == '\U{205F}'
    || c == '\U{3000}'
  }

  predicate EndsWith(s: string, suffix: string) {
    |suffix| <= |s| && s[|s| - |suffix|..] == suffix
  }

  /** The content is fenced on both ends. */
  predicate Fenced(s: string) {
    Fence <= s && EndsWith(s, Fence)
  }

  /** The first alternative of `START_CODE_BLOCK_RE`: a json fence followed
      (by look-ahead, so not consumed) by a whitespace character. */
  predicate OpensJsonFence(s: string) {
    JsonFence <= s && |s| > |JsonFence| && IsRegexSpace(s[|JsonFence|])
  }

  /** `START_CODE_BLOCK_RE.sub("", s)`: the pattern is anchored at the start
      and cannot match the empty string, so at most one prefix goes. */
  function SubStartCodeBlock(s: string): (r: string)
    ensures |r| <= |s| && r == s[|s| - |r|..]
    ensures OpensJsonFence(s) ==> |r| == |s| - 7
    ensures !OpensJsonFence(s) && Fence <= s ==> |r| == |s| - 3
    ensures !(Fence <= s) ==> r == s
  {
    if OpensJsonFence(s) then s[|JsonFence|..]
    else if Fence <= s then s[|Fence|..]
    else s
  }

  /** Python's `s[:stop]`, where a negative stop counts from the end and
      the bound is clipped to the string. */
  function SliceTo(s: string, stop: int): (r: string)
    ensures |r| <= |s| && r == s[..|r|]
    ensures stop < 0 ==> |r| == if |s| + stop >= 0 then |s| + stop else 0
    ensures 0 <= stop ==> |r| == if stop <= |s| then stop else |s|
  {
    var n := if stop < 0 then |s| + stop else stop;
    s[..if n < 0 then 0 else if n > |s| then |s| else n]
  }

  /** `s.lstrip(cs)`. */
  function TrimStart(s: string, cs: set<char>): (r: string)
    ensures |r| <= |s| && r == s[|s| - |r|..]
    ensures forall k :: 0 <= k < |s| - |r| ==> s[k] in cs
    ensures r != [] ==> r[0] !in cs
  {
    if s != [] && s[0] in cs then TrimStart(s[1..], cs) else s
  }

  /** `s.rstrip(cs)`. */
  function TrimEnd(s: string, cs: set<char>): (r: string)
    ensures |r| <= |s| && r == s[..|r|]
    ensures forall k :: |r| <= k < |s| ==> s[k] in cs
    ensures r != [] ==> r[|r| - 1] !in cs
  {
    if s != [] && s[|s| - 1] in cs then TrimEnd(s[..|s| - 1], cs) else s
  }

  /** `s.strip(cs)`: a slice of the input that neither starts nor ends with
      a character of the set. */
  function Strip(s: string, cs: set<char>): (r: string)
    ensures |r| <= |s|
    ensures r != [] ==> r[0] !in cs && r[|r| - 1] !in cs
  {
    var t := TrimStart(s, cs);
    var r := TrimEnd(t, cs);
    assert r != [] ==> r[0] == t[0];
    r
  }

  /** `cleanup_code`. */
  function CleanupCode(content: string): (r: string)
    ensures exists i, j :: 0 <= i <= j <= |content| && r == content[i..j]
    ensures |r| <= |content|
  {
    if Fenced(content) then
      var t := SubStartCodeBlock(content);
      var r := SliceTo(t, -3);
      var i := |content| - |t|;
      assert r == content[i..i + |r|];
      r
    else
      StripSlice(content, StripChars);
      Strip(content, StripChars)
  }

  /** What strip keeps is the maximal middle slice whose ends lie outside
      the stripped set. */
  lemma StripSlice(s: string, cs: set<char>)
    ensures exists i, j ::
      (&& 0 <= i <= j <= |s| && Strip(s, cs) == s[i..j]
       && (forall k :: 0 <= k < i ==> s[k] in cs)
       && (forall k :: j <= k < |s| ==> s[k] in cs))
    ensures Strip(s, cs) != [] ==> Strip(s, cs)[0] !in cs && Strip(s, cs)[|Strip(s, cs)| - 1] !in cs
  {
    var t := TrimStart(s, cs);
    var r := TrimEnd(t, cs);
    var i := |s| - |t|;
    var j := i + |r|;
    assert t == s[i..];
    assert r == t[..|r|];
    assert r == s[i..j];
    assert forall k :: 0 <= k < i ==> s[k] in cs;
    forall k | j <= k < |s| ensures s[k] in cs {
      assert s[k] == t[k - i];
    }
    if r != [] {
      assert r[0] == t[0];
    }
  }

  /** A json fence followed by whitespace loses its first seven characters
      and the closing fence. */
  lemma CleanupJsonFence(s: string)
    requires Fenced(s) && OpensJsonFence(s)
    ensures |s| >= 11 && CleanupCode(s) == s[7..|s| - 3]
  {
    assert s[..7] == JsonFence;
    assert s[|s| - 3..] == Fence;
  }

  /** Any other fence loses three characters at each end, the two slices
      clipped by Python's rules: "```json```" becomes "json". */
  lemma CleanupPlainFence(s: string)
    requires Fenced(s) && !OpensJsonFence(s)
    ensures CleanupCode(s) == if |s| >= 6 then s[3..|s| - 3] else ""
  {
  }

  /** A json fence without whitespace after it is an ordinary fence. */
  lemma CleanupJsonWithoutSpace()
    ensures CleanupCode("```json```") == "json"
  {
    var s := "```json```";
    assert !IsRegexSpace(s[7]);
    CleanupPlainFence(s);
    assert s[3..7] == "json";
  }

  lemma CleanupJsonBlock()
    ensures CleanupCode("```json\n{}\n```") == "\n{}\n"
  {
    var s := "```json\n{}\n```";
    assert s[..7] == JsonFence && s[|s| - 3..] == Fence;
    CleanupJsonFence(s);
    assert s[7..|s| - 3] == "\n{}\n";
  }

  /** Unfenced input leaves strip with nothing from the set at either end,
      as the maximal such slice. */
  lemma CleanupUnfenced(s: string)
    requires !Fenced(s)
    ensures var r := CleanupCode(s);
      && (r != [] ==> r[0] !in StripChars && r[|r| - 1] !in StripChars)
      && exists i, j ::
        (&& 0 <= i <= j <= |s| && r == s[i..j]
         && (forall k :: 0 <= k < i ==> s[k] in StripChars)
         && (forall k :: j <= k < |s| ==> s[k] in StripChars))
  {
    StripSlice(s, StripChars);
  }

  /** Stripping is idempotent. */
  lemma StripIdempotent(s: string, cs: set<char>)
    ensures Strip(Strip(s, cs), cs) == Strip(s, cs)
  {
    var r := Strip(s, cs);
    StripSlice(s, cs);
    if r != [] {
      assert TrimStart(r, cs) == r;
    }
  }

  /** Cleaning up unfenced input a second time changes nothing: the first
      cleanup leaves no backtick at the front, so no fence either. */
  lemma CleanupUnfencedIdempotent(s: string)
    requires !Fenced(s)
    ensures CleanupCode(CleanupCode(s)) == CleanupCode(s)
  {
    var r := CleanupCode(s);
    StripSlice(s, StripChars);
    assert r != [] ==> r[0] != Fence[0];
    StripIdempotent(s, StripChars);
  }
}
