/**
 * `extract_video_id` of youtube_samenvatting.py, with the two regular
 * expressions it tries written out as matchers under `re.search` semantics.
 */
module VideoId {
  import opened Wrappers
  import opened Text

  /** `[a-zA-Z0-9_-]` */
  predicate IsIdChar(c: char) {
    ('a' <= c <= 'z') || ('A' <= c <= 'Z') || ('0' <= c <= '9') || c == '_' || c == '-'
  }

  /** A video ID: exactly 11 characters of the ID alphabet. */
  predicate IsVideoId(s: string) {
    |s| == 11 && forall k :: 0 <= k < |s| ==> IsIdChar(s[k])
  }

  const WatchPrefix: string := "youtube.com/watch?v="
  const ShortPrefix: string := "youtu.be/"
  const EmbedPrefix: string := "youtube.com/embed/"

  /** The three alternatives of the first pattern, in the order the regex tries them. */
  const UrlPrefixes: seq<string> := [WatchPrefix, ShortPrefix, EmbedPrefix]

  /** `prefix` occurs at `i` and is followed by a video ID; that ID. */
  function IdAfter(url: string, prefix: string, i: nat): Option<string>
  {
    var j := i + |prefix|;
    if OccursAt(url, prefix, i) && j + 11 <= |url| && IsVideoId(url[j..j + 11])
    then Some(url[j..j + 11]) else None
  }

  /** The first pattern anchored at `i`: the alternatives in order, each followed by 11 ID
      characters (a failing alternative backtracks into the next one). */
  function LinkAt(url: string, i: nat): (r: Option<string>)
    ensures r.Some? ==> IsVideoId(r.value) && i + |ShortPrefix| + 11 <= |url|
  {
    var w := IdAfter(url, WatchPrefix, i);
    if w.Some? then w
    else
      var s := IdAfter(url, ShortPrefix, i);
      if s.Some? then s else IdAfter(url, EmbedPrefix, i)
  }

  /** `re.search` of the first pattern from position `i` on: the leftmost match. */
  function FindLink(url: string, i: nat): (r: Option<string>)
    requires i <= |url|
    ensures r.Some? ==> exists k :: i <= k <= |url| && LinkAt(url, k) == r
    ensures r.None? <==> forall k :: i <= k <= |url| ==> LinkAt(url, k).None?
    ensures forall k :: i <= k <= |url| && LinkAt(url, k).Some? && (forall j :: i <= j < k ==> LinkAt(url, j).None?)
                   ==> r == LinkAt(url, k)
    decreases |url| - i
  {
    if LinkAt(url, i).Some? then LinkAt(url, i)
    else if i == |url| then None
    else FindLink(url, i + 1)
  }

  /** The second pattern, `^([a-zA-Z0-9_-]{11})$`. Python's `$` also matches just before a
      final newline, so one trailing "\n" is allowed. */
  predicate IsBareId(url: string) {
    || IsVideoId(url)
    || (|url| == 12 && url[11] == '\n' && IsVideoId(url[..11]))
  }

  /** `extract_video_id(url)`. */
  function ExtractVideoId(url: string): (r: Option<string>)
    ensures r.Some? ==> IsVideoId(r.value)
    ensures r.None? <==> (forall k :: 0 <= k <= |url| ==> LinkAt(url, k).None?) && !IsBareId(url)
    ensures forall k :: 0 <= k <= |url| && LinkAt(url, k).Some? && (forall j :: 0 <= j < k ==> LinkAt(url, j).None?)
                   ==> r == LinkAt(url, k)
    ensures (forall k :: 0 <= k <= |url| ==> LinkAt(url, k).None?) && IsBareId(url) ==> r == Some(url[..11])
  {
    var link := FindLink(url, 0);
    if link.Some? then link
    else if IsBareId(url) then Some(url[..11])
    else None
  }

  /** The three URL prefixes differ at a fixed position, so at most one occurs at any index:
      the order of the alternatives never decides the outcome. */
  lemma PrefixesExclusive(url: string, i: nat)
    ensures !(OccursAt(url, WatchPrefix, i) && OccursAt(url, ShortPrefix, i))
    ensures !(OccursAt(url, WatchPrefix, i) && OccursAt(url, EmbedPrefix, i))
    ensures !(OccursAt(url, ShortPrefix, i) && OccursAt(url, EmbedPrefix, i))
  {
    if OccursAt(url, WatchPrefix, i) {
      assert url[i..i + |WatchPrefix|][5] == url[i + 5] == 'b';
      assert url[i..i + |WatchPrefix|][12] == url[i + 12] == 'w';
    }
    if OccursAt(url, ShortPrefix, i) {
      assert url[i..i + |ShortPrefix|][5] == url[i + 5] == '.';
    }
    if OccursAt(url, EmbedPrefix, i) {
      assert url[i..i + |EmbedPrefix|][5] == url[i + 5] == 'b';
      assert url[i..i + |EmbedPrefix|][12] == url[i + 12] == 'e';
    }
  }

  /** Whichever prefix is followed by an ID at `i`, that is the ID the first pattern yields. */
  lemma LinkAtPrefix(url: string, prefix: string, i: nat)
    requires prefix in UrlPrefixes
    requires IdAfter(url, prefix, i).Some?
    ensures LinkAt(url, i) == IdAfter(url, prefix, i)
  {
    PrefixesExclusive(url, i);
  }

  /** Every alternative begins with 'y', so no match starts where the URL has another character. */
  lemma NoLinkWithoutY(url: string, i: nat)
    requires i < |url| && url[i] != 'y'
    ensures LinkAt(url, i).None?
  {
    forall p | p in UrlPrefixes ensures !OccursAt(url, p, i) {
      if i + |p| <= |url| {
        assert url[i..i + |p|][0] == url[i];
      }
    }
  }

  /** Every prefix has a '.', so a string without one holds no link. */
  lemma NoLinkWithoutDot(url: string, i: nat)
    requires '.' !in url
    ensures LinkAt(url, i).None?
  {
    forall p | p in UrlPrefixes ensures !OccursAt(url, p, i) {
      var dot := if p == ShortPrefix then 5 else 7;
      if i + |p| <= |url| {
        assert url[i..i + |p|][dot] == url[i + dot];
      }
    }
  }

  /** A bare ID is returned as it is, also with the one trailing newline `$` tolerates. */
  lemma BareIdIsItself(id: string)
    requires IsVideoId(id)
    ensures ExtractVideoId(id) == Some(id)
    ensures ExtractVideoId(id + "\n") == Some(id)
  {
    forall k | 0 <= k <= |id| ensures LinkAt(id, k).None? {
      NoLinkWithoutDot(id, k);
    }
    assert id[..11] == id;
    var line := id + "\n";
    assert '.' !in line;
    forall k | 0 <= k <= |line| ensures LinkAt(line, k).None? {
      NoLinkWithoutDot(line, k);
    }
    assert line[..11] == id;
  }

  /** The same ID after any of the three prefixes, with no 'y' before the prefix (a scheme
      such as "https://www.") and anything at all after the ID, yields that ID. */
  lemma EmbeddedIdIsFound(lead: string, prefix: string, id: string, tail: string)
    requires prefix in UrlPrefixes && IsVideoId(id)
    requires 'y' !in lead
    ensures ExtractVideoId(lead + prefix + id + tail) == Some(id)
  {
    var url := lead + prefix + id + tail;
    var i := |lead|;
    assert url[i..i + |prefix|] == prefix;
    assert url[i + |prefix|..i + |prefix| + 11] == id;
    LinkAtPrefix(url, prefix, i);
    forall j | 0 <= j < i ensures LinkAt(url, j).None? {
      assert url[j] == lead[j];
      NoLinkWithoutY(url, j);
    }
  }

  lemma WatchUrlIsFound(id: string)
    requires IsVideoId(id)
    ensures ExtractVideoId("https://www.youtube.com/watch?v=" + id) == Some(id)
  {
    assert "https://www.youtube.com/watch?v=" + id == "https://www." + WatchPrefix + id + "";
    EmbeddedIdIsFound("https://www.", WatchPrefix, id, "");
  }

  lemma ShortUrlIsFound(id: string)
    requires IsVideoId(id)
    ensures ExtractVideoId("https://youtu.be/" + id) == Some(id)
  {
    assert "https://youtu.be/" + id == "https://" + ShortPrefix + id + "";
    EmbeddedIdIsFound("https://", ShortPrefix, id, "");
  }

  lemma EmbedUrlIsFound(id: string)
    requires IsVideoId(id)
    ensures ExtractVideoId("https://www.youtube.com/embed/" + id) == Some(id)
  {
    assert "https://www.youtube.com/embed/" + id == "https://www." + EmbedPrefix + id + "";
    EmbeddedIdIsFound("https://www.", EmbedPrefix, id, "");
  }

  /** The four URL shapes of one video all give the same reference. */
  lemma UrlShapesAgree(id: string)
    requires IsVideoId(id)
    ensures ExtractVideoId("https://www.youtube.com/watch?v=" + id) == Some(id)
    ensures ExtractVideoId("https://youtu.be/" + id) == Some(id)
    ensures ExtractVideoId("https://www.youtube.com/embed/" + id) == Some(id)
    ensures ExtractVideoId(id) == Some(id)
  {
    WatchUrlIsFound(id);
    ShortUrlIsFound(id);
    EmbedUrlIsFound(id);
    BareIdIsItself(id);
  }
}
