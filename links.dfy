/**
 * Social-media link checks and normal forms: the per-platform URL validators,
 * the cleaning used to detect a link that was already added, and the display
 * handles shown in the link summary.
 */
module SocialLinks {
  import opened Wrappers
  import opened Strings

  /** The trimmed, lower-cased form the platform validators inspect. */
  function Normal(url: string): string {
    Lower(Strip(url))
  }

  /** `validate_facebook_url` */
  predicate IsFacebookUrl(url: string) {
    Contains(Normal(url), "facebook.com") || Contains(Normal(url), "fb.com")
  }

  /** `validate_instagram_url` */
  predicate IsInstagramUrl(url: string) {
    Contains(Normal(url), "instagram.com") || Contains(Normal(url), "instagr.am")
  }

  /** `validate_youtube_url`: single-video links are refused, channel links accepted. */
  predicate IsYoutubeUrl(url: string) {
    var u := Normal(url);
    if Contains(u, "youtube.com/watch") || Contains(u, "youtu.be/") then false
    else Contains(u, "youtube.com")
  }

  /** The domains `validate_social_media_url` accepts, in the order it lists them. */
  const SocialDomains: seq<string> :=
    ["twitter.com", "linkedin.com", "tiktok.com", "snapchat.com", "youtube.com", "telegram.me"]

  /** `validate_social_media_url`: note that it neither trims nor lower-cases. */
  predicate IsSocialUrl(url: string) {
    exists i :: 0 <= i < |SocialDomains| && Contains(url, SocialDomains[i])
  }

  /** `re.sub(r'^https?://(www\.)?', '', u)`: drops a leading scheme and, after it, `www.`. */
  function StripScheme(u: string): (r: string)
    ensures |r| <= |u| && r == u[|u| - |r|..]
  {
    var rest :=
      if StartsWith(u, "https://") then Some(u[8..])
      else if StartsWith(u, "http://") then Some(u[7..])
      else None;
    match rest
    case None => u
    case Some(v) => if StartsWith(v, "www.") then v[4..] else v
  }

  /** `clean_social_media_url`: the form two links are compared in. */
  function Clean(url: string): string {
    DropQuery(Trimmed(url))
  }

  /** The first half of `clean_social_media_url`: trimmed, lower-cased, without
      scheme, `www.` or trailing slashes. */
  function Trimmed(url: string): string {
    RStripChar(StripScheme(Normal(url)), '/')
  }

  /** The second half of `clean_social_media_url`: the query string is cut from
      Facebook and Instagram links only. */
  function DropQuery(u: string): string {
    var u := if Contains(u, "facebook.com") || Contains(u, "fb.com") then SplitFirst(u, "?") else u;
    if Contains(u, "instagram.com") then SplitFirst(u, "?") else u
  }

  /** `extract_youtube_username`: the channel name, or a shortened URL. */
  function YoutubeHandle(url: string): string {
    var u := Normal(url);
    var u := if Contains(u, "?") then SplitFirst(u, "?") else u;
    if Contains(u, "/channel/") then "قناة: " + SplitFirst(SplitLast(u, "/channel/"), "/")
    else if Contains(u, "/c/") then "@" + SplitFirst(SplitLast(u, "/c/"), "/")
    else if Contains(u, "/user/") then "@" + SplitFirst(SplitLast(u, "/user/"), "/")
    else if Contains(u, "/@") then "@" + SplitFirst(SplitLast(u, "/@"), "/")
    else if |u| > 30 then u[..30] + "..."
    else u
  }

  /** `extract_username`: the last path segment as `@name`, or the URL itself. */
  function Handle(url: string): string {
    var cleaned := SplitFirst(StripScheme(url), "?");
    if Contains(url, "youtube.com") || Contains(url, "youtu.be") then YoutubeHandle(url)
    else if Contains(cleaned, "/") && SplitLast(cleaned, "/") != "" then "@" + SplitLast(cleaned, "/")
    else url
  }

  // ---------------------------------------------------------------------------
  // Facts.

  /** A string that neither starts nor ends with white space is its own `strip()`. */
  lemma StripUnchanged(s: string)
    requires |s| > 0 && !IsSpace(s[0]) && !IsSpace(s[|s| - 1])
    ensures Strip(s) == s
  {
  }

  /** Lower-casing keeps every occurrence, lower-cased itself. */
  lemma LowerOccurs(s: string, w: string, i: nat)
    requires OccursAt(s, w, i)
    ensures OccursAt(Lower(s), Lower(w), i)
  {
    assert Lower(s)[i..i + |w|] == Lower(s[i..i + |w|]);
  }

  /** `lstrip()` keeps an occurrence of a pattern that starts with a non-space. */
  lemma StripLeftKeeps(s: string, w: string, i: nat) returns (j: nat)
    requires OccursAt(s, w, i) && |w| > 0 && !IsSpace(w[0])
    ensures OccursAt(StripLeft(s), w, j)
  {
    var l := StripLeft(s);
    var k := |s| - |l|;
    assert l == s[k..];
    assert s[i..i + |w|][0] == s[i];
    assert !IsSpace(s[i]);
    assert i >= k;
    j := i - k;
    assert l[j..j + |w|] == s[i..i + |w|];
  }

  /** `rstrip()` keeps an occurrence of a pattern that ends with a non-space. */
  lemma StripRightKeeps(s: string, w: string, i: nat)
    requires OccursAt(s, w, i) && |w| > 0 && !IsSpace(w[|w| - 1])
    ensures OccursAt(StripRight(s), w, i)
  {
    var r := StripRight(s);
    assert s[i..i + |w|][|w| - 1] == s[i + |w| - 1];
    assert i + |w| <= |r|;
    assert r[i..i + |w|] == s[i..i + |w|];
  }

  /** Trimming and lower-casing keep an occurrence of a pattern that starts and
      ends with a non-space character, so the validators see what the user wrote. */
  lemma ContainsNormal(s: string, w: string)
    requires Contains(s, w)
    requires |w| > 0 && !IsSpace(Lower(w)[0]) && !IsSpace(Lower(w)[|w| - 1])
    ensures Contains(Normal(s), Lower(w))
  {
    assert Lower(w)[0] == LowerChar(w[0]);
    assert Lower(w)[|w| - 1] == LowerChar(w[|w| - 1]);
    var i := ContainsOccurrence(s, w);
    var j := StripLeftKeeps(s, w, i);
    StripRightKeeps(StripLeft(s), w, j);
    LowerOccurs(Strip(s), w, j);
    ContainsAtIndex(Normal(s), Lower(w), j);
  }

  /** `validate_youtube_url` refuses every link to a single video, in any letter case. */
  lemma YoutubeRejectsVideos(url: string, w: string)
    requires Contains(url, w)
    requires Lower(w) == "youtube.com/watch" || Lower(w) == "youtu.be/"
    ensures !IsYoutubeUrl(url)
  {
    ContainsNormal(url, w);
  }

  /** Any link mentioning the Facebook domain, in any letter case, passes `validate_facebook_url`. */
  lemma FacebookAccepts(url: string, w: string)
    requires Contains(url, w)
    requires Lower(w) == "facebook.com" || Lower(w) == "fb.com"
    ensures IsFacebookUrl(url)
  {
    ContainsNormal(url, w);
  }

  /** Any link mentioning the Instagram domain, in any letter case, passes `validate_instagram_url`. */
  lemma InstagramAccepts(url: string, w: string)
    requires Contains(url, w)
    requires Lower(w) == "instagram.com" || Lower(w) == "instagr.am"
    ensures IsInstagramUrl(url)
  {
    ContainsNormal(url, w);
  }

  /** A pattern with a character the text lacks does not occur in it. */
  lemma MissingChar(s: string, t: string, m: nat)
    requires m < |t| && t[m] !in s
    ensures !Contains(s, t)
  {
    forall j: nat ensures !OccursAt(s, t, j) {
      if j + |t| <= |s| {
        assert s[j..j + |t|][m] == s[j + m];
      }
    }
    ContainsIff(s, t);
  }

  /** The middle part of a concatenation occurs in it. */
  lemma OccursInMiddle(x: string, y: string, z: string)
    ensures OccursAt(x + y + z, y, |x|)
  {
    assert (x + y + z)[|x|..|x| + |y|] == y;
  }

  /** A link that names youtube.com, in any letter case, and is not a video link is accepted. */
  lemma YoutubeAcceptsChannels(url: string, w: string)
    requires Contains(url, w) && Lower(w) == "youtube.com"
    requires !Contains(Normal(url), "youtube.com/watch") && !Contains(Normal(url), "youtu.be/")
    ensures IsYoutubeUrl(url)
  {
    ContainsNormal(url, w);
  }

  /** The channel link of the bot's own prompt, `https://youtube.com/@alice`, is accepted. */
  lemma YoutubeChannelExample()
    ensures IsYoutubeUrl("https://youtube" + "." + "com/@alice")
  {
    var a := "https://youtube" + "." + "com/@alice";
    ChannelExampleNormal();
    assert a == "https://" + "youtube.com" + "/@alice";
    OccursInMiddle("https://", "youtube.com", "/@alice");
    ContainsAtIndex(a, "youtube.com", 8);
    ChannelExampleNotVideo();
  }

  lemma ChannelExampleNormal()
    ensures Normal("https://youtube" + "." + "com/@alice") == "https://youtube" + "." + "com/@alice"
  {
    var l, r := "https://youtube", "com/@alice";
    var a := l + "." + r;
    assert a[0] == 'h' && a[|a| - 1] == 'e';
    StripUnchanged(a);
    LowerConcat(l + ".", r);
    LowerConcat(l, ".");
    assert Lower(l) == l && Lower(r) == r && Lower(".") == ".";
  }

  lemma ChannelExampleNotVideo()
    ensures !Contains("https://youtube" + "." + "com/@alice", "youtube.com/watch")
    ensures !Contains("https://youtube" + "." + "com/@alice", "youtu.be/")
  {
    var l, r := "https://youtube", "com/@alice";
    var a := l + "." + r;
    assert 'w' !in l && 'w' !in r;
    MissingChar(a, "youtube.com/watch", 12);
    assert '.' !in l && '.' !in r;
    forall j: nat ensures !OccursAt(a, "youtu.be/", j) {
      if j + 9 <= |a| {
        assert a[j..j + 9][5] == a[j + 5];
        if j == 10 {
          assert a[j..j + 9][6] == a[16] == r[0];
        } else if j + 5 < 15 {
          assert a[j + 5] == l[j + 5];
        } else {
          assert a[j + 5] == r[j + 5 - 16];
        }
      }
    }
    ContainsIff(a, "youtu.be/");
  }

  /** The single-video link of the bot's own prompt, `https://youtube.com/watch?v=abc`, is refused. */
  lemma YoutubeVideoExample()
    ensures !IsYoutubeUrl("https://" + "youtube.com/watch" + "?v=abc")
  {
    var v := "https://" + "youtube.com/watch" + "?v=abc";
    OccursInMiddle("https://", "youtube.com/watch", "?v=abc");
    ContainsAtIndex(v, "youtube.com/watch", 8);
    LowerWatch();
    YoutubeRejectsVideos(v, "youtube.com/watch");
  }

  /** The lower-case video path lower-cases to itself. */
  lemma LowerWatch()
    ensures Lower("youtube.com/watch") == "youtube.com/watch"
  {
  }

  /** `DropQuery` cuts the query string from a Facebook link. */
  lemma DropQueryFacebook(p: string, t: string)
    requires '?' !in p && OccursAt(p, "facebook.com", 0)
    ensures DropQuery(p + "?" + t) == p
  {
    assert (p + "?" + t)[..|p|] == p;
    ContainsAtIndex(p + "?" + t, "facebook.com", 0);
    SplitFirstAt(p, '?', t);
    SplitFirstAbsent(p, '?');
  }

  /** `DropQuery` leaves a link without a query string alone. */
  lemma DropQueryNone(p: string)
    requires '?' !in p
    ensures DropQuery(p) == p
  {
    SplitFirstAbsent(p, '?');
  }

  /** `https://` is removed, and `www.` is kept when it does not follow it directly. */
  lemma SchemeHttps(x: string)
    requires |x| > 0 && x[0] != 'w'
    ensures StripScheme("https://" + x) == x
  {
    assert ("https://" + x)[..8] == "https://";
    assert ("https://" + x)[8..] == x;
  }

  /** `https://` is removed, and then a leading `www.`. */
  lemma SchemeHttpsAny(x: string)
    ensures StripScheme("https://" + x) == if StartsWith(x, "www.") then x[4..] else x
  {
    assert ("https://" + x)[..8] == "https://";
    assert ("https://" + x)[8..] == x;
  }

  /** `http://www.` is removed. */
  lemma SchemeHttpWww(x: string)
    ensures StripScheme("http://www." + x) == x
  {
    var s := "http://www." + x;
    assert s[4] == ':';
    assert s[..7] == "http://";
    assert s[7..] == "www." + x;
    assert (s[7..])[..4] == "www.";
    assert (s[7..])[4..] == x;
  }

  /** `strip()` of a string that starts with a non-space and has a non-space
      somewhere keeps everything up to that character. */
  lemma StripKeepsFront(pre: string, q: string)
    requires |pre| > 0 && !IsSpace(pre[0]) && !IsSpace(pre[|pre| - 1])
    ensures Strip(pre + q) == pre + StripRight(q)
  {
    assert StripLeft(pre + q) == pre + q;
    StripRightConcat(pre, q);
  }

  /** The prefixes a link may start with that `clean_social_media_url` removes, and none. */
  predicate IsSchemeSpelling(scheme: string) {
    || scheme == "" || scheme == "http://" || scheme == "https://"
    || scheme == "http://www." || scheme == "https://www."
  }

  /** What may follow a profile handle: nothing, one slash, or a query string. */
  predicate IsProfileTail(tail: string) {
    tail == "" || tail == "/" || (|tail| > 0 && tail[0] == '?')
  }

  /** `http://` is removed, and `www.` is kept when it does not follow it directly. */
  lemma SchemeHttp(x: string)
    requires |x| > 0 && x[0] != 'w'
    ensures StripScheme("http://" + x) == x
  {
    var s := "http://" + x;
    assert s[4] == ':';
    assert s[..7] == "http://" && s[7..] == x;
  }

  /** Every scheme spelling is removed in front of `facebook.com/`. */
  lemma SchemeOfFacebook(scheme: string, rest: string)
    requires IsSchemeSpelling(scheme)
    ensures StripScheme(scheme + ("facebook.com/" + rest)) == "facebook.com/" + rest
  {
    var x := "facebook.com/" + rest;
    assert x[0] == 'f';
    if scheme == "" {
      assert scheme + x == x;
      assert !StartsWith(x, "https://") && !StartsWith(x, "http://") by {
        assert x[..1] != "h";
      }
    } else if scheme == "http://" {
      SchemeHttp(x);
    } else if scheme == "https://" {
      SchemeHttps(x);
    } else if scheme == "http://www." {
      SchemeHttpWww(x);
    } else {
      assert scheme + x == "https://" + ("www." + x);
      SchemeHttpsAny("www." + x);
      assert ("www." + x)[..4] == "www." && ("www." + x)[4..] == x;
    }
  }

  /** Lower-casing keeps the length, and neither makes nor removes a `/` or a `?`. */
  lemma LowerKeepsMarks(h: string)
    requires |h| > 0
    ensures |Lower(h)| == |h|
    ensures Lower(h)[|h| - 1] == '/' <==> h[|h| - 1] == '/'
    ensures '?' in Lower(h) ==> '?' in h
  {
    if '?' in Lower(h) {
      var i :| 0 <= i < |h| && Lower(h)[i] == '?';
      assert h[i] == '?';
    }
  }

  /** The scheme spellings and `facebook.com/` are their own lower case. */
  lemma LowerFacebookPrefix(scheme: string)
    requires IsSchemeSpelling(scheme)
    ensures Lower(scheme + "facebook.com/") == scheme + "facebook.com/"
  {
    LowerConcat(scheme, "facebook.com/");
    assert Lower("facebook.com/") == "facebook.com/";
    assert Lower(scheme) == scheme;
  }

  /** `strip()` of `p + h + tail`, where `p` starts with a non-space: the end
      of a query string may lose its white space, nothing else changes. */
  lemma StripProfile(p: string, h: string, tail: string) returns (st: string)
    requires |p| > 0 && !IsSpace(p[0]) && |h| > 0 && IsProfileTail(tail)
    requires tail == "" ==> !IsSpace(h[|h| - 1])
    ensures Strip(p + h + tail) == p + h + st
    ensures tail == "" || tail == "/" ==> st == tail
    ensures tail != "" && tail != "/" ==> |st| > 0 && st[0] == '?'
  {
    var s := p + h + tail;
    if tail == "" || tail == "/" {
      assert s[0] == p[0];
      assert s[|s| - 1] == if tail == "" then h[|h| - 1] else '/';
      StripUnchanged(s);
      st := tail;
    } else {
      var pre := p + h + "?";
      assert s == pre + tail[1..];
      assert pre[0] == p[0] && pre[|pre| - 1] == '?';
      StripKeepsFront(pre, tail[1..]);
      st := "?" + StripRight(tail[1..]);
      assert pre + StripRight(tail[1..]) == p + h + st;
    }
  }

  /** Lower-casing `p + h + st`, where `p` is its own lower case. */
  lemma LowerProfile(p: string, h: string, st: string) returns (lt: string)
    requires Lower(p) == p && IsProfileTail(st)
    ensures Lower(p + h + st) == p + Lower(h) + lt
    ensures st == "" || st == "/" ==> lt == st
    ensures st != "" && st != "/" ==> |lt| > 0 && lt[0] == '?'
  {
    LowerConcat(p + h, st);
    LowerConcat(p, h);
    lt := Lower(st);
    if st != "" {
      assert lt[0] == LowerChar(st[0]);
    }
  }

  /** Trimming and lower-casing a Facebook profile link lower-cases the handle
      and keeps a slash or a query string after it. */
  lemma NormalFacebookForm(scheme: string, h: string, tail: string) returns (lt: string)
    requires IsSchemeSpelling(scheme) && IsProfileTail(tail)
    requires |h| > 0 && (tail == "" ==> !IsSpace(h[|h| - 1]))
    ensures Normal(scheme + "facebook.com/" + h + tail) == scheme + ("facebook.com/" + (Lower(h) + lt))
    ensures tail == "" || tail == "/" ==> lt == tail
    ensures tail != "" && tail != "/" ==> |lt| > 0 && lt[0] == '?'
  {
    var p := scheme + "facebook.com/";
    assert p[0] == 'h' || p[0] == 'f';
    var st := StripProfile(p, h, tail);
    LowerFacebookPrefix(scheme);
    lt := LowerProfile(p, h, st);
    ConcatAssoc(scheme, "facebook.com/", Lower(h), lt);
  }

  /** Concatenation regrouped to the left. */
  lemma ConcatAssoc3(a: string, b: string, c: string)
    ensures a + (b + c) == a + b + c
  {
  }

  /** Concatenation regrouped to the right. */
  lemma ConcatAssoc(a: string, b: string, c: string, d: string)
    ensures a + b + c + d == a + (b + (c + d))
  {
  }

  /** The cleaned form `facebook.com/` and a handle: no `?`, no final `/`, and
      the domain at its start. */
  lemma FacebookHandleShape(hl: string)
    requires |hl| > 0 && hl[|hl| - 1] != '/' && '?' !in hl
    ensures var f := "facebook.com/" + hl;
      '?' !in f && f[|f| - 1] != '/' && OccursAt(f, "facebook.com", 0)
  {
    var f := "facebook.com/" + hl;
    assert f[|f| - 1] == hl[|hl| - 1];
    assert f[..12] == "facebook.com";
  }

  /** `rstrip('/')` and the query cut leave `f` of a slash or a query string after it. */
  lemma CleanProfileTail(f: string, lt: string)
    requires |f| > 0 && f[|f| - 1] != '/' && '?' !in f && OccursAt(f, "facebook.com", 0)
    requires IsProfileTail(lt)
    ensures DropQuery(RStripChar(f + lt, '/')) == f
  {
    if lt == "" {
      assert f + lt == f;
      DropQueryNone(f);
    } else if lt == "/" {
      RStripCharConcat(f, "/", '/');
      assert RStripChar("/", '/') == [];
      assert f + [] == f;
      DropQueryNone(f);
    } else {
      assert f + lt == (f + "?") + lt[1..];
      RStripCharConcat(f + "?", lt[1..], '/');
      DropQueryFacebook(f, RStripChar(lt[1..], '/'));
    }
  }

  /** `clean_social_media_url` gives a Facebook profile link one form, the
      handle lower-cased, whichever scheme spelling it starts with and whether
      it ends with the handle, a slash or a query string. */
  lemma CleanFacebookForms(scheme: string, h: string, tail: string)
    requires IsSchemeSpelling(scheme) && IsProfileTail(tail)
    requires |h| > 0 && h[|h| - 1] != '/' && '?' !in h
    requires tail == "" ==> !IsSpace(h[|h| - 1])
    ensures Clean(scheme + "facebook.com/" + h + tail) == "facebook.com/" + Lower(h)
  {
    var lt := NormalFacebookForm(scheme, h, tail);
    LowerKeepsMarks(h);
    CleanOfNormal(scheme + "facebook.com/" + h + tail, scheme, Lower(h), lt);
  }

  /** `Clean` of a link whose normal form is a scheme spelling, `facebook.com/`,
      a handle and a tail. */
  lemma CleanOfNormal(s: string, scheme: string, hl: string, lt: string)
    requires IsSchemeSpelling(scheme) && IsProfileTail(lt)
    requires |hl| > 0 && hl[|hl| - 1] != '/' && '?' !in hl
    requires Normal(s) == scheme + ("facebook.com/" + (hl + lt))
    ensures Clean(s) == "facebook.com/" + hl
  {
    SchemeOfFacebook(scheme, hl + lt);
    FacebookHandleShape(hl);
    ConcatAssoc3("facebook.com/", hl, lt);
    CleanProfileTail("facebook.com/" + hl, lt);
  }

  /** `https://facebook.com/Alice?ref=1` and `http://www.facebook.com/alice/` are the same profile. */
  lemma CleanFacebookExample()
    ensures Clean("https://" + "facebook.com/" + "Alice" + "?ref=1") == Clean("http://www." + "facebook.com/" + "alice" + "/")
  {
    LowerAlice();
    CleanFacebookForms("https://", "Alice", "?ref=1");
    CleanFacebookForms("http://www.", "alice", "/");
  }

  lemma LowerAlice()
    ensures Lower("Alice") == Lower("alice")
  {
    assert Lower("Alice")[0] == 'a';
  }

  /** `extract_username` shows a profile link outside YouTube as `@` and its last path segment. */
  lemma HandleOfProfileLink(x: string, name: string)
    requires '?' !in x && '?' !in name
    requires name != [] && '/' !in name
    requires !Contains("https://" + x + "/" + name, "youtube.com")
    requires !Contains("https://" + x + "/" + name, "youtu.be")
    ensures Handle("https://" + x + "/" + name) == "@" + name
  {
    var host := SchemeThenHost(x, name);
    assert forall i :: 0 <= i < |host| ==> host[i] in x;
    HandleOfPath(host, name);
  }

  /** What `https://` and a `www.` after it leave of `https://x/name`. */
  lemma SchemeThenHost(x: string, name: string) returns (host: string)
    ensures host == if StartsWith(x, "www.") then x[4..] else x
    ensures StripScheme("https://" + x + "/" + name) == host + "/" + name
  {
    var rest := x + "/" + name;
    assert "https://" + x + "/" + name == "https://" + rest;
    SchemeHttpsAny(rest);
    host := if StartsWith(x, "www.") then x[4..] else x;
    if StartsWith(x, "www.") {
      assert rest[..4] == x[..4] && rest[4..] == host + "/" + name;
    } else if |x| >= 4 {
      assert rest[..4] == x[..4];
    } else if |rest| >= 4 {
      assert rest[..4][|x|] == '/';
    }
  }

  /** The last segment of `host/name`, with no `?` in either, is `name`. */
  lemma HandleOfPath(host: string, name: string)
    requires '?' !in host && '?' !in name && name != [] && '/' !in name
    ensures var h := host + "/" + name;
      SplitFirst(h, "?") == h && Contains(h, "/") && SplitLast(h, "/") == name
  {
    var h := host + "/" + name;
    assert '?' !in h;
    SplitFirstAbsent(h, '?');
    OccursInMiddle(host, "/", name);
    ContainsAtIndex(h, "/", |host|);
    SplitLastAfter(host, '/', name);
  }
}
