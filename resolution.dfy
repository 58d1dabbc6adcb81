/**
 * How a sound chooses where its buffer comes from (`isDirectURL` and the
 * branch structure of `getSoundBuffer` in ts/Sound.ts). The request, the
 * decoding and the promise are not modelled; only the choice is.
 */
module Resolution {
  import opened Wrappers
  import opened AudioGraph

  /** `pat` occurs in `s` starting at index `i`. */
  predicate OccursAt(s: string, pat: string, i: int)
  {
    0 <= i && i + |pat| <= |s| && s[i..i + |pat|] == pat
  }

  /** Unanchored substring search, scanning from the left as a regular expression test does. */
  function Contains(s: string, pat: string): (r: bool)
    ensures r <==> exists i :: OccursAt(s, pat, i)
  {
    if |s| < |pat| then
      assert forall i :: !OccursAt(s, pat, i);
      false
    else if s[..|pat|] == pat then
      assert OccursAt(s, pat, 0);
      true
    else
      var r := Contains(s[1..], pat);
      assert forall i :: OccursAt(s, pat, i) && i > 0 ==> OccursAt(s[1..], pat, i - 1);
      assert forall i :: OccursAt(s[1..], pat, i) ==> OccursAt(s, pat, i + 1);
      r
  }

  /**
   * `/http(s?):\/\//g.test(str)`: the string holds "http://" or "https://"
   * anywhere, not only at its start. The expression is a literal, so a new
   * regular expression (with `lastIndex` 0) is made on every call and the
   * global flag has no memory between calls.
   */
  function IsDirectURL(str: string): (r: bool)
    ensures r <==> exists i :: OccursAt(str, "http://", i) || OccursAt(str, "https://", i)
  {
    Contains(str, "http://") || Contains(str, "https://")
  }

  /** The URL requested for a string source: the string itself when direct, else relative to the page's origin. */
  function FetchLink(source: string, origin: string): string
  {
    if IsDirectURL(source) then source else origin + "/" + source
  }

  /** An occurrence in a prefix is an occurrence in the whole. */
  lemma OccursInPrefix(a: string, b: string, pat: string, i: int)
    requires OccursAt(a, pat, i)
    ensures OccursAt(a + b, pat, i)
  {
    assert (a + b)[i..i + |pat|] == a[i..i + |pat|];
  }

  /** When the origin is itself an http(s) URL, every link requested is a direct URL. */
  lemma FetchLinkIsDirect(source: string, origin: string)
    requires IsDirectURL(origin)
    ensures IsDirectURL(FetchLink(source, origin))
  {
    if !IsDirectURL(source) {
      var i :| OccursAt(origin, "http://", i) || OccursAt(origin, "https://", i);
      if OccursAt(origin, "http://", i) {
        OccursInPrefix(origin, "/" + source, "http://", i);
      } else {
        OccursInPrefix(origin, "/" + source, "https://", i);
      }
      assert origin + "/" + source == origin + ("/" + source);
    }
  }

  /**
   * The test is unanchored: any string that mentions "https://" anywhere,
   * such as a relative path with a URL in its query, is fetched as it is.
   */
  lemma UnanchoredMatch(pre: string, post: string, origin: string)
    ensures IsDirectURL(pre + "https://" + post)
    ensures FetchLink(pre + "https://" + post, origin) == pre + "https://" + post
  {
    var s := pre + "https://" + post;
    assert s[|pre|..|pre| + 8] == "https://";
    assert OccursAt(s, "https://", |pre|);
  }

  /** A path that mentions neither "http://" nor "https://" is put under the origin. */
  lemma RelativePath(path: string, origin: string)
    requires forall i :: !OccursAt(path, "http://", i) && !OccursAt(path, "https://", i)
    ensures !IsDirectURL(path)
    ensures FetchLink(path, origin) == origin + "/" + path
  {
  }

  /** The way getSoundBuffer settles its promise. */
  datatype BufferPlan =
    | UseCached(cached: AudioBuffer)
    | DecodeBytes(data: seq<bv8>)
    | FetchAndDecode(link: string)
    | UseDecoded(decoded: AudioBuffer)

  /**
   * Which branch of getSoundBuffer settles the promise first. A buffer
   * already held resolves it at once, whatever the source now is: a later
   * branch may still start a decode, but a promise keeps its first result.
   * A string is fetched only when no buffer is held, and that case is then
   * already settled by the first branch. Every source type the model has is
   * recognised, so the "Invalid Source Type." rejection cannot arise.
   */
  function PlanResolution(cached: Option<AudioBuffer>, src: SoundSource, origin: string): BufferPlan
  {
    if cached.Some? then UseCached(cached.value)
    else match src
      case Bytes(data) => DecodeBytes(data)
      case Url(path) => FetchAndDecode(FetchLink(path, origin))
      case Decoded(b) => UseDecoded(b)
  }

  /**
   * Each source type has its own branch, taken exactly when no buffer is
   * held; a held buffer is used exactly when there is one.
   */
  lemma PlanBranches(cached: Option<AudioBuffer>, src: SoundSource, origin: string)
    ensures PlanResolution(cached, src, origin).UseCached? <==> cached.Some?
    ensures PlanResolution(cached, src, origin).DecodeBytes? <==> cached.None? && src.Bytes?
    ensures PlanResolution(cached, src, origin).FetchAndDecode? <==> cached.None? && src.Url?
    ensures PlanResolution(cached, src, origin).UseDecoded? <==> cached.None? && src.Decoded?
    ensures PlanResolution(cached, src, origin).FetchAndDecode? ==>
      PlanResolution(cached, src, origin).link == FetchLink(src.path, origin)
  {
  }

  /** Once a buffer is held, reassigning the source does not change the buffer a reload obtains. */
  lemma CachedBufferWins(b: AudioBuffer, src1: SoundSource, src2: SoundSource, origin: string)
    ensures PlanResolution(Some(b), src1, origin) == PlanResolution(Some(b), src2, origin) == UseCached(b)
  {
  }
}
