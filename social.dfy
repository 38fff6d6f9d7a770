/** Threading and registry (social.py): the hashtag segmentation Bluesky posts are
    built from, the reply chains of the Bluesky and Mastodon posters, and the
    manager that keeps the authenticated platforms and posts the thread to each. */
module Social {
  import opened Common
  import opened Text
  import Formatter
  import SpaceWeather

  type Post = Formatter.Post

  // ---------------------------------------------------------------------------
  // Hashtag segmentation
  // ---------------------------------------------------------------------------

  /** A piece of a rich-text post: plain text, or a hashtag with its tag value. */
  datatype Segment = TextPart(text: string) | TagPart(hashtag: string, tag: string)

  function Render(segment: Segment): string {
    match segment
    case TextPart(t) => t
    case TagPart(h, _) => h
  }

  /** The text the segments spell, in order. */
  function Concat(segments: seq<Segment>): string
    decreases |segments|
  {
    if |segments| == 0 then ""
    else Concat(segments[..|segments| - 1]) + Render(segments[|segments| - 1])
  }

  /** The pattern `#\w+` can start at position j of s. */
  predicate TagStartsAt(s: string, j: int) {
    0 <= j && j + 1 < |s| && s[j] == '#' && IsWordChar(s[j + 1])
  }

  /** A text part is non-empty and holds no hashtag; a tag part is '#' and at least
      one word character, and its tag value is the hashtag without the '#'. */
  predicate WellFormed(segment: Segment) {
    match segment
    case TextPart(t) => |t| > 0 && forall j :: 0 <= j < |t| ==> !TagStartsAt(t, j)
    case TagPart(h, tag) => |h| >= 2 && h[0] == '#' && tag == h[1..] && forall j :: 1 <= j < |h| ==> IsWordChar(h[j])
  }

  predicate StartsWithWordChar(segment: Segment) {
    |Render(segment)| > 0 && IsWordChar(Render(segment)[0])
  }

  /** What the scan over `#\w+` matches produces: the parts spell the message, each
      part is well formed, two text parts are never adjacent (the text between two
      matches is one part) and a hashtag is never followed by a word character
      (matches are greedy). */
  ghost predicate IsSegmentationOf(segments: seq<Segment>, message: string) {
    && Concat(segments) == message
    && (forall i :: 0 <= i < |segments| ==> WellFormed(segments[i]))
    && (forall i :: 0 <= i < |segments| - 1 ==> segments[i].TextPart? ==> segments[i + 1].TagPart?)
    && (forall i :: 0 <= i < |segments| - 1 ==> segments[i].TagPart? ==> !StartsWithWordChar(segments[i + 1]))
  }

  lemma ConcatAppend(segments: seq<Segment>, segment: Segment)
    ensures Concat(segments + [segment]) == Concat(segments) + Render(segment)
  {
    assert (segments + [segment])[..|segments|] == segments;
  }

  /** A hashtag start inside a slice is one in the whole string. */
  lemma SliceTagStart(s: string, a: int, b: int, j: int)
    requires 0 <= a <= b <= |s| && TagStartsAt(s[a..b], j)
    ensures TagStartsAt(s, a + j)
  {
    assert s[a..b][j] == s[a + j] && s[a..b][j + 1] == s[a + j + 1];
  }

  /** The text from `lastPos` to `p`, scanned without finding a hashtag start, is a
      well-formed text part. */
  lemma TextPartWellFormed(message: string, lastPos: int, p: int)
    requires 0 <= lastPos < p <= |message|
    requires forall j :: lastPos <= j < p ==> !TagStartsAt(message, j)
    ensures WellFormed(TextPart(message[lastPos..p]))
  {
    forall j | 0 <= j < p - lastPos
      ensures !TagStartsAt(message[lastPos..p], j)
    {
      if TagStartsAt(message[lastPos..p], j) {
        SliceTagStart(message, lastPos, p, j);
      }
    }
  }

  /** The parts emitted so far spell the message up to `pos` and obey the
      segmentation rules. */
  ghost predicate Emitted(segments: seq<Segment>, message: string, pos: int) {
    && 0 <= pos <= |message|
    && Concat(segments) == message[..pos]
    && (forall i :: 0 <= i < |segments| ==> WellFormed(segments[i]))
    && (forall i :: 0 <= i < |segments| - 1 ==> segments[i].TextPart? ==> segments[i + 1].TagPart?)
    && (forall i :: 0 <= i < |segments| - 1 ==> segments[i].TagPart? ==> !StartsWithWordChar(segments[i + 1]))
  }

  /** The state of the scan once the message up to `lastPos` has been emitted: the
      parts end with a hashtag if there are any, and that hashtag is not followed by
      a word character. */
  ghost predicate Scanned(segments: seq<Segment>, message: string, lastPos: int) {
    && Emitted(segments, message, lastPos)
    && (|segments| > 0 ==> segments[|segments| - 1].TagPart?)
    && (|segments| > 0 && lastPos < |message| ==> !IsWordChar(message[lastPos]))
  }

  /** Emitting the text between the previous match and the next one. */
  lemma TextStep(segments: seq<Segment>, message: string, lastPos: int, p: int)
    requires Scanned(segments, message, lastPos) && lastPos < p <= |message|
    requires forall j :: lastPos <= j < p ==> !TagStartsAt(message, j)
    ensures Emitted(segments + [TextPart(message[lastPos..p])], message, p)
  {
    var text := TextPart(message[lastPos..p]);
    var result := segments + [text];
    TextPartWellFormed(message, lastPos, p);
    ConcatAppend(segments, text);
    assert message[..lastPos] + message[lastPos..p] == message[..p];
    assert forall i :: 0 <= i < |segments| ==> result[i] == segments[i];
    assert |segments| > 0 ==> Render(result[|segments|])[0] == message[lastPos];
  }

  /** Emitting a greedy match at [p, e): the scan state holds again, up to e. */
  lemma TagStep(segments: seq<Segment>, message: string, p: int, e: int)
    requires Emitted(segments, message, p)
    requires TagStartsAt(message, p) && p + 2 <= e <= |message|
    requires forall j :: p + 1 <= j < e ==> IsWordChar(message[j])
    requires e < |message| ==> !IsWordChar(message[e])
    ensures Scanned(segments + [TagPart(message[p..e], message[p + 1..e])], message, e)
  {
    var tag := TagPart(message[p..e], message[p + 1..e]);
    var result := segments + [tag];
    assert WellFormed(tag) by {
      assert forall j :: 1 <= j < e - p ==> message[p..e][j] == message[p + j];
    }
    ConcatAppend(segments, tag);
    assert message[..p] + message[p..e] == message[..e];
    assert forall i :: 0 <= i < |segments| ==> result[i] == segments[i];
    assert !StartsWithWordChar(tag);
  }

  /** Emitting the rest of the message after the last match completes the
      segmentation. */
  lemma FinalStep(segments: seq<Segment>, message: string, lastPos: int)
    requires Scanned(segments, message, lastPos)
    requires forall j :: lastPos <= j < |message| ==> !TagStartsAt(message, j)
    ensures var rest := if lastPos < |message| then [TextPart(message[lastPos..])] else [];
      IsSegmentationOf(segments + rest, message)
  {
    if lastPos < |message| {
      TextStep(segments, message, lastPos, |message|);
      assert message[lastPos..] == message[lastPos..|message|];
      assert message[..|message|] == message;
    } else {
      assert segments + [] == segments;
      assert message[..lastPos] == message;
    }
  }

  /** The parts one match of `#\w+` at [p, e) adds: the text since the previous
      match, if any, then the hashtag with its tag value. */
  function EmitMatch(segments: seq<Segment>, message: string, lastPos: int, p: int, e: int): seq<Segment>
    requires 0 <= lastPos <= p < e <= |message|
  {
    (if p > lastPos then segments + [TextPart(message[lastPos..p])] else segments)
    + [TagPart(message[p..e], message[p + 1..e])]
  }

  /** Emitting a match keeps the scan state, now up to the end of the match. */
  lemma MatchStep(segments: seq<Segment>, message: string, lastPos: int, p: int, e: int)
    requires Scanned(segments, message, lastPos) && lastPos <= p
    requires forall j :: lastPos <= j < p ==> !TagStartsAt(message, j)
    requires TagStartsAt(message, p) && p + 2 <= e <= |message|
    requires forall j :: p + 1 <= j < e ==> IsWordChar(message[j])
    requires e < |message| ==> !IsWordChar(message[e])
    ensures Scanned(EmitMatch(segments, message, lastPos, p, e), message, e)
  {
    var tag := TagPart(message[p..e], message[p + 1..e]);
    if p > lastPos {
      var before := segments + [TextPart(message[lastPos..p])];
      TextStep(segments, message, lastPos, p);
      TagStep(before, message, p, e);
      assert EmitMatch(segments, message, lastPos, p, e) == before + [tag];
    } else {
      TagStep(segments, message, p, e);
      assert EmitMatch(segments, message, lastPos, p, e) == segments + [tag];
    }
  }

  /** The greedy end of the match of `#\w+` that starts at p. */
  method MatchEnd(message: string, p: int) returns (e: int)
    requires TagStartsAt(message, p)
    ensures p + 2 <= e <= |message|
    ensures forall j :: p + 1 <= j < e ==> IsWordChar(message[j])
    ensures e < |message| ==> !IsWordChar(message[e])
  {
    e := p + 2;
    while e < |message| && IsWordChar(message[e])
      invariant p + 2 <= e <= |message|
      invariant forall j :: p + 1 <= j < e ==> IsWordChar(message[j])
    {
      e := e + 1;
    }
  }

  /** The rich-text builder loop of BlueskyPoster.post_thread: text before each match
      of `#\w+`, the match as a tag whose value drops the '#', then the rest. */
  method SegmentMessage(message: string) returns (segments: seq<Segment>)
    ensures IsSegmentationOf(segments, message)
  {
    segments := [];
    var lastPos := 0;
    var p := 0;
    while p < |message|
      invariant lastPos <= p <= |message|
      invariant Scanned(segments, message, lastPos)
      invariant forall j :: lastPos <= j < p ==> !TagStartsAt(message, j)
    {
      if TagStartsAt(message, p) {
        var e := MatchEnd(message, p);
        MatchStep(segments, message, lastPos, p, e);
        segments := EmitMatch(segments, message, lastPos, p, e);
        lastPos := e;
        p := e;
      } else {
        p := p + 1;
      }
    }
    FinalStep(segments, message, lastPos);
    if lastPos < |message| {
      segments := segments + [TextPart(message[lastPos..])];
    }
  }

  // ---------------------------------------------------------------------------
  // Posting threads
  // ---------------------------------------------------------------------------

  /** How many posts of a thread of n get sent when the server raises on post
      number `failAt` (counted from zero), if it does. */
  function SentCount(n: nat, failAt: Option<nat>): (k: nat)
    ensures k <= n
    ensures k == n <==> (failAt.None? || failAt.value >= n)
  {
    if failAt.Some? && failAt.value < n then failAt.value else n
  }

  /** The image a post carries once posted: its URL must be non-empty and the image
      must be obtained (the chart rendered or the file downloaded) and uploaded,
      which `imageReady` abstracts. */
  function ImageOf(post: Post, imageReady: string -> bool): Option<string> {
    if post.imageUrl.Some? && post.imageUrl.value != "" && imageReady(post.imageUrl.value) then post.imageUrl
    else None
  }

  /** The reference the Bluesky server returns for a post: its position in the feed
      stands for the (cid, uri) pair. */
  datatype StrongRef = StrongRef(index: nat)
  datatype ReplyRef = ReplyRef(parent: StrongRef, root: StrongRef)
  datatype ImageEmbed = ImageEmbed(source: string, alt: string)
  /** A post as the Bluesky server received it. */
  datatype FeedPost = FeedPost(segments: seq<Segment>, replyTo: Option<ReplyRef>, embed: Option<ImageEmbed>)

  /** Post i of a Bluesky thread starting at feed position `base`: the segmentation
      of its text, no reply reference for the first post, then the previous post as
      parent and the first post as root, and the image if it was obtained. */
  ghost predicate IsBlueskyThreadPost(sent: FeedPost, base: nat, i: nat, post: Post, imageReady: string -> bool) {
    && IsSegmentationOf(sent.segments, post.text)
    && sent.replyTo == (if i == 0 then None else Some(ReplyRef(StrongRef(base + i - 1), StrongRef(base))))
    && sent.embed == (if ImageOf(post, imageReady).Some? then Some(ImageEmbed(post.imageUrl.value, post.altText)) else None)
  }

  /** One Bluesky post as the loop body builds it: the rich text, the reply
      reference it is given and the image embed when the image was obtained. */
  method ComposeBlueskyPost(post: Post, replyTo: Option<ReplyRef>, imageReady: string -> bool) returns (sent: FeedPost)
    ensures IsSegmentationOf(sent.segments, post.text)
    ensures sent.replyTo == replyTo
    ensures sent.embed == (if ImageOf(post, imageReady).Some? then Some(ImageEmbed(post.imageUrl.value, post.altText)) else None)
  {
    var segments := SegmentMessage(post.text);
    var embed: Option<ImageEmbed> := None;
    var imageUrl := post.imageUrl;
    if imageUrl.Some? && imageUrl.value != "" && imageReady(imageUrl.value) {
      embed := Some(ImageEmbed(imageUrl.value, post.altText));
    }
    sent := FeedPost(segments, replyTo, embed);
  }

  /** The thread appended after `earlier` sits at the positions that follow it. */
  lemma BlueskyThreadInFeed(earlier: seq<FeedPost>, thread: seq<FeedPost>, posts: seq<Post>, imageReady: string -> bool)
    requires |thread| <= |posts|
    requires forall j :: 0 <= j < |thread| ==> IsBlueskyThreadPost(thread[j], |earlier|, j, posts[j], imageReady)
    ensures forall j :: 0 <= j < |thread| ==>
      IsBlueskyThreadPost((earlier + thread)[|earlier| + j], |earlier|, j, posts[j], imageReady)
  {
    forall j | 0 <= j < |thread|
      ensures IsBlueskyThreadPost((earlier + thread)[|earlier| + j], |earlier|, j, posts[j], imageReady)
    {
      assert (earlier + thread)[|earlier| + j] == thread[j];
    }
  }

  /** A post that is the thread's next one extends the thread. */
  lemma BlueskyThreadGrows(thread: seq<FeedPost>, post: FeedPost, base: nat, posts: seq<Post>, imageReady: string -> bool)
    requires |thread| < |posts|
    requires forall j :: 0 <= j < |thread| ==> IsBlueskyThreadPost(thread[j], base, j, posts[j], imageReady)
    requires IsBlueskyThreadPost(post, base, |thread|, posts[|thread|], imageReady)
    ensures forall j :: 0 <= j < |thread| + 1 ==> IsBlueskyThreadPost((thread + [post])[j], base, j, posts[j], imageReady)
  {
    hide IsBlueskyThreadPost;
    forall j | 0 <= j < |thread| + 1
      ensures IsBlueskyThreadPost((thread + [post])[j], base, j, posts[j], imageReady)
    {
      if j < |thread| {
        assert (thread + [post])[j] == thread[j];
      }
    }
  }

  class BlueskyPoster {
    const handle: string
    const appPassword: string
    var hasClient: bool
    var authenticated: bool
    /** The posts the server has accepted from this poster, in order. */
    var feed: seq<FeedPost>

    constructor(handle: string, appPassword: string)
      ensures this.handle == handle && this.appPassword == appPassword
      ensures !hasClient && !authenticated && feed == []
    {
      this.handle := handle;
      this.appPassword := appPassword;
      hasClient := false;
      authenticated := false;
      feed := [];
    }

    /** authenticate: a client is created, and the login's outcome decides. */
    method Authenticate(loginSucceeds: bool) returns (ok: bool)
      modifies this`hasClient, this`authenticated
      ensures hasClient && authenticated == loginSucceeds && ok == loginSucceeds
    {
      hasClient := true;
      authenticated := loginSucceeds;
      ok := loginSucceeds;
    }

    /** post_thread: nothing is sent without authentication; otherwise the posts go
        out in order, each replying to the previous one under the first, until the
        server raises, and the thread succeeds when every post went out. */
    method PostThread(posts: seq<Post>, imageReady: string -> bool, failAt: Option<nat>) returns (ok: bool)
      modifies this`feed
      ensures !(authenticated && hasClient) ==> !ok && feed == old(feed)
      ensures authenticated && hasClient ==>
        var k := SentCount(|posts|, failAt);
        && ok == (k == |posts|)
        && |feed| == |old(feed)| + k && feed[..|old(feed)|] == old(feed)
        && forall i :: 0 <= i < k ==> IsBlueskyThreadPost(feed[|old(feed)| + i], |old(feed)|, i, posts[i], imageReady)
    {
      if !authenticated || !hasClient {
        return false;
      }
      var base := |feed|;
      var replyTo: Option<ReplyRef> := None;
      ghost var thread: seq<FeedPost> := [];
      var i := 0;
      while i < |posts|
        invariant 0 <= i <= |posts| && i <= SentCount(|posts|, failAt)
        invariant |thread| == i && feed == old(feed) + thread && base == |old(feed)|
        invariant forall j :: 0 <= j < i ==> IsBlueskyThreadPost(thread[j], base, j, posts[j], imageReady)
        invariant replyTo == (if i == 0 then None else Some(ReplyRef(StrongRef(base + i - 1), StrongRef(base))))
      {
        var post := ComposeBlueskyPost(posts[i], replyTo, imageReady);
        if failAt == Some(i) {
          BlueskyThreadInFeed(old(feed), thread, posts, imageReady);
          return false;
        }
        assert IsBlueskyThreadPost(post, base, i, posts[i], imageReady);
        BlueskyThreadGrows(thread, post, base, posts, imageReady);
        var sent := |feed|;
        feed := feed + [post];
        thread := thread + [post];
        var root := if replyTo.None? then StrongRef(sent) else replyTo.value.root;
        replyTo := Some(ReplyRef(StrongRef(sent), root));
        i := i + 1;
      }
      BlueskyThreadInFeed(old(feed), thread, posts, imageReady);
      ok := true;
    }
  }

  /** A status as the Mastodon server received it; ids are positions in the
      server's status and media lists. */
  datatype Status = Status(text: string, inReplyToId: Option<nat>, mediaIds: Option<seq<nat>>, visibility: string)

  /** The number of posts of a thread of n whose turn of the loop began: the sent
      ones and, when a post failed, that post too, whose image upload came before
      the failing status_post. */
  function Attempted(n: nat, failAt: Option<nat>): (a: nat)
    ensures a <= n
    ensures a == SentCount(n, failAt) + (if SentCount(n, failAt) < n then 1 else 0)
  {
    if failAt.Some? && failAt.value < n then failAt.value + 1 else n
  }

  /** The descriptions uploaded for the first n posts of a thread, in order: one
      per post whose image was obtained. */
  function Uploads(posts: seq<Post>, n: nat, imageReady: string -> bool): (r: seq<string>)
    requires n <= |posts|
    ensures |r| <= n
  {
    if n == 0 then []
    else Uploads(posts, n - 1, imageReady)
         + (if ImageOf(posts[n - 1], imageReady).Some? then [posts[n - 1].altText] else [])
  }

  /** The upload for post i sits at position |Uploads(posts, i)| of the uploads of
      any longer prefix, and its description is the post's alt text. */
  lemma {:induction false} UploadedAltText(posts: seq<Post>, i: nat, n: nat, imageReady: string -> bool)
    requires i < n <= |posts| && ImageOf(posts[i], imageReady).Some?
    ensures |Uploads(posts, i, imageReady)| < |Uploads(posts, n, imageReady)|
    ensures Uploads(posts, n, imageReady)[|Uploads(posts, i, imageReady)|] == posts[i].altText
  {
    if n == i + 1 {
    } else {
      UploadedAltText(posts, i, n - 1, imageReady);
      assert Uploads(posts, n, imageReady)[..|Uploads(posts, n - 1, imageReady)|] == Uploads(posts, n - 1, imageReady);
    }
  }

  /** Status i of a Mastodon thread of `posts` starting at position `base`: the
      post's text, public, no reply id for the first status and the previous
      status's id after it, and, exactly when the image was obtained, the one media
      id of the upload made for this post (the uploads of this thread start at
      `mediaBase`); an empty media list is sent as None. */
  ghost predicate IsMastodonThreadStatus(statuses: seq<Status>, base: nat, mediaBase: nat, posts: seq<Post>, i: nat,
                                         imageReady: string -> bool)
    requires base + i < |statuses| && i < |posts|
  {
    var status := statuses[base + i];
    && status.text == posts[i].text
    && status.visibility == "public"
    && status.inReplyToId == (if i == 0 then None else Some(base + i - 1))
    && status.mediaIds == (if ImageOf(posts[i], imageReady).Some?
                           then Some([mediaBase + |Uploads(posts, i, imageReady)|]) else None)
  }

  /** A status that cites media cites an entry of this thread's uploads, and that
      entry's description is the post's alt text. */
  lemma MastodonMediaDescribed(statuses: seq<Status>, earlier: seq<string>, media: seq<string>, base: nat,
                               posts: seq<Post>, i: nat, n: nat, imageReady: string -> bool)
    requires base + i < |statuses| && i < n <= |posts|
    requires media == earlier + Uploads(posts, n, imageReady)
    requires IsMastodonThreadStatus(statuses, base, |earlier|, posts, i, imageReady)
    ensures var ids := statuses[base + i].mediaIds;
            ids.Some? ==> |ids.value| == 1 && |earlier| <= ids.value[0] < |media| && media[ids.value[0]] == posts[i].altText
  {
    if statuses[base + i].mediaIds.Some? {
      UploadedAltText(posts, i, n, imageReady);
    }
  }

  /** A status that is the thread's next one extends the thread. */
  lemma MastodonThreadGrows(statuses: seq<Status>, status: Status, base: nat, mediaBase: nat, posts: seq<Post>,
                            imageReady: string -> bool)
    requires base <= |statuses| && |statuses| - base < |posts|
    requires forall j :: 0 <= j < |statuses| - base ==> IsMastodonThreadStatus(statuses, base, mediaBase, posts, j, imageReady)
    requires IsMastodonThreadStatus(statuses + [status], base, mediaBase, posts, |statuses| - base, imageReady)
    ensures forall j :: 0 <= j < |statuses| + 1 - base ==>
              IsMastodonThreadStatus(statuses + [status], base, mediaBase, posts, j, imageReady)
  {
    forall j | 0 <= j < |statuses| + 1 - base
      ensures IsMastodonThreadStatus(statuses + [status], base, mediaBase, posts, j, imageReady)
    {
      if j < |statuses| - base {
        assert (statuses + [status])[base + j] == statuses[base + j];
        assert IsMastodonThreadStatus(statuses, base, mediaBase, posts, j, imageReady);
      } else {
        assert j == |statuses| - base;
      }
    }
  }

  class MastodonPoster {
    const apiBaseUrl: string
    const accessToken: string
    const clientId: Option<string>
    const clientSecret: Option<string>
    var hasClient: bool
    /** Whether the client was built with the OAuth app credentials as well. */
    var usesAppCredentials: bool
    var authenticated: bool
    /** Descriptions of the media uploaded so far; a media id is a position here. */
    var media: seq<string>
    /** The statuses the server has accepted from this poster, in order. */
    var statuses: seq<Status>

    constructor(apiBaseUrl: string, accessToken: string, clientId: Option<string>, clientSecret: Option<string>)
      ensures this.apiBaseUrl == apiBaseUrl && this.accessToken == accessToken
      ensures this.clientId == clientId && this.clientSecret == clientSecret
      ensures !hasClient && !usesAppCredentials && !authenticated && media == [] && statuses == []
    {
      this.apiBaseUrl := apiBaseUrl;
      this.accessToken := accessToken;
      this.clientId := clientId;
      this.clientSecret := clientSecret;
      hasClient := false;
      usesAppCredentials := false;
      authenticated := false;
      media := [];
      statuses := [];
    }

    /** authenticate: the client uses the app credentials only when both are
        non-empty; the credential check's outcome decides. */
    method Authenticate(verifySucceeds: bool) returns (ok: bool)
      modifies this`hasClient, this`usesAppCredentials, this`authenticated
      ensures hasClient && authenticated == verifySucceeds && ok == verifySucceeds
      ensures usesAppCredentials == (clientId.Some? && clientId.value != "" && clientSecret.Some? && clientSecret.value != "")
    {
      usesAppCredentials := clientId.Some? && clientId.value != "" && clientSecret.Some? && clientSecret.value != "";
      hasClient := true;
      authenticated := verifySucceeds;
      ok := verifySucceeds;
    }

    /** The image step of post_thread's loop: when the post's image is obtained it
        is uploaded with the alt text as its description, and its id is the one
        media id of the status. */
    method UploadImage(post: Post, imageReady: string -> bool) returns (mediaIds: seq<nat>)
      modifies this`media
      ensures media == old(media) + (if ImageOf(post, imageReady).Some? then [post.altText] else [])
      ensures mediaIds == if ImageOf(post, imageReady).Some? then [|old(media)|] else []
    {
      mediaIds := [];
      var imageUrl := post.imageUrl;
      if imageUrl.Some? && imageUrl.value != "" && imageReady(imageUrl.value) {
        media := media + [post.altText];
        mediaIds := mediaIds + [|media| - 1];
      }
    }

    /** post_thread: nothing is sent without authentication; otherwise each status
        replies to the previous one's id, until the server raises. */
    method PostThread(posts: seq<Post>, imageReady: string -> bool, failAt: Option<nat>) returns (ok: bool)
      modifies this`media, this`statuses
      ensures !(authenticated && hasClient) ==> !ok && statuses == old(statuses) && media == old(media)
      ensures authenticated && hasClient ==>
        var k := SentCount(|posts|, failAt);
        && ok == (k == |posts|)
        && |statuses| == |old(statuses)| + k && statuses[..|old(statuses)|] == old(statuses)
        && media == old(media) + Uploads(posts, Attempted(|posts|, failAt), imageReady)
        && forall i :: 0 <= i < k ==> IsMastodonThreadStatus(statuses, |old(statuses)|, |old(media)|, posts, i, imageReady)
    {
      if !authenticated || !hasClient {
        return false;
      }
      var base := |statuses|;
      var replyToId: Option<nat> := None;
      var i := 0;
      while i < |posts|
        invariant 0 <= i <= |posts| && i <= SentCount(|posts|, failAt)
        invariant |statuses| == base + i && statuses[..base] == old(statuses)
        invariant media == old(media) + Uploads(posts, i, imageReady)
        invariant forall j :: 0 <= j < i ==> IsMastodonThreadStatus(statuses, base, |old(media)|, posts, j, imageReady)
        invariant replyToId == (if i == 0 then None else Some(base + i - 1))
      {
        ghost var uploaded := Uploads(posts, i, imageReady);
        assert Uploads(posts, i + 1, imageReady)
               == uploaded + (if ImageOf(posts[i], imageReady).Some? then [posts[i].altText] else []);
        hide Uploads;
        var mediaIds := UploadImage(posts[i], imageReady);
        assert media == old(media) + Uploads(posts, i + 1, imageReady);
        if failAt == Some(i) {
          return false;
        }
        var status := Status(posts[i].text, replyToId, if |mediaIds| > 0 then Some(mediaIds) else None, "public");
        assert (statuses + [status])[base + i] == status;
        assert IsMastodonThreadStatus(statuses + [status], base, |old(media)|, posts, i, imageReady);
        MastodonThreadGrows(statuses, status, base, |old(media)|, posts, imageReady);
        statuses := statuses + [status];
        replyToId := Some(|statuses| - 1);
        i := i + 1;
      }
      ok := true;
    }
  }

  // ---------------------------------------------------------------------------
  // The platform registry
  // ---------------------------------------------------------------------------

  /** A registered platform: its name and its poster, as the manager's tuples hold
      them. */
  datatype Platform = BlueskyPlatform(bluesky: BlueskyPoster) | MastodonPlatform(mastodon: MastodonPoster)

  function PlatformName(platform: Platform): string {
    if platform.BlueskyPlatform? then "Bluesky" else "Mastodon"
  }

  function PosterOf(platform: Platform): object {
    match platform
    case BlueskyPlatform(b) => b
    case MastodonPlatform(m) => m
  }

  /** get_platform_names over a list of platforms. */
  function NamesOf(platforms: seq<Platform>): (names: seq<string>)
    ensures |names| == |platforms|
    ensures forall i :: 0 <= i < |platforms| ==> names[i] == PlatformName(platforms[i])
  {
    if |platforms| == 0 then [] else NamesOf(platforms[..|platforms| - 1]) + [PlatformName(platforms[|platforms| - 1])]
  }

  /** The platform key post_to_all passes to the formatter. */
  function FormatterPlatform(name: string): string {
    if name == "Bluesky" then "bluesky" else "mastodon"
  }

  /** A call of format_thread_posts(data, platform='bluesky') with `positional`
      arguments, bound as CPython binds them: `data` is required, `platform` defaults
      to "bluesky", and any other count raises TypeError before the body runs. */
  function CallFormatThreadPosts(positional: nat, data: SpaceWeather.SpaceWeatherData, platform: string,
                                 now: Formatter.UtcTime): (r: Result<seq<Post>>)
    ensures positional == 1 ==> r == Formatter.GuardThread(Formatter.ThreadLayout(data, 300, now), 300)
    ensures positional == 2 ==> r == Formatter.GuardThread(Formatter.ThreadLayout(data, Formatter.CharLimit(platform), now),
                                                           Formatter.CharLimit(platform))
    ensures positional == 0 ==> r == Err("format_thread_posts() missing 1 required positional argument: 'data'")
    ensures positional > 2 ==> r == Err("format_thread_posts() takes from 1 to 2 positional arguments but "
                                        + NatToString(positional) + " were given")
  {
    if positional == 0 then
      Err("format_thread_posts() missing 1 required positional argument: 'data'")
    else if positional > 2 then
      Err("format_thread_posts() takes from 1 to 2 positional arguments but " + NatToString(positional) + " were given")
    else
      var limit := if positional == 1 then Formatter.CharLimit("bluesky") else Formatter.CharLimit(platform);
      Formatter.GuardThread(Formatter.ThreadLayout(data, limit, now), limit)
  }

  /** The call post_to_all makes passes include_hamradio as a third argument: it
      raises for every data snapshot and platform. */
  lemma ThreeArgumentCallRaises(data: SpaceWeather.SpaceWeatherData, platform: string, now: Formatter.UtcTime)
    ensures CallFormatThreadPosts(3, data, platform, now).Err?
    ensures CallFormatThreadPosts(3, data, platform, now).error
            == "format_thread_posts() takes from 1 to 2 positional arguments but 3 were given"
  {
    assert NatToString(3) == "3";
  }

  /** The sign-in state of a platform's poster: authenticated, and with a client. */
  function Signed(platform: Platform): (bool, bool)
    reads PosterOf(platform)
  {
    match platform
    case BlueskyPlatform(b) => (b.authenticated, b.hasClient)
    case MastodonPlatform(m) => (m.authenticated, m.hasClient)
  }

  /** Whether post_thread succeeds for a thread of n posts on a poster in sign-in
      state `signed` under platform name `name`: it is authenticated with a client
      and the server accepts every post. */
  predicate Delivers(signed: (bool, bool), name: string, n: int, failAt: string -> Option<nat>) {
    signed.0 && signed.1 && (failAt(name).None? || failAt(name).value >= n)
  }

  /** A Bluesky feed before and after post_to_all's step for it: unchanged when the
      thread failed to format or the poster is not signed in; otherwise the posts
      sent before the server raised (all of them if it never did) are appended as a
      reply chain. */
  ghost predicate BlueskyPosted(before: seq<FeedPost>, after: seq<FeedPost>, signed: (bool, bool),
                                thread: Result<seq<Post>>, imageReady: string -> bool, failAt: Option<nat>) {
    if thread.Err? || !(signed.0 && signed.1) then after == before
    else
      var k := SentCount(|thread.value|, failAt);
      && |after| == |before| + k && after[..|before|] == before
      && forall i :: 0 <= i < k ==> IsBlueskyThreadPost(after[|before| + i], |before|, i, thread.value[i], imageReady)
  }

  /** The Mastodon statuses and media before and after post_to_all's step for the
      poster, in the same terms. */
  ghost predicate MastodonPosted(before: seq<Status>, after: seq<Status>, mediaBefore: seq<string>, mediaAfter: seq<string>,
                                 signed: (bool, bool), thread: Result<seq<Post>>, imageReady: string -> bool,
                                 failAt: Option<nat>) {
    if thread.Err? || !(signed.0 && signed.1) then after == before && mediaAfter == mediaBefore
    else
      var k := SentCount(|thread.value|, failAt);
      && |after| == |before| + k && after[..|before|] == before
      && mediaAfter == mediaBefore + Uploads(thread.value, Attempted(|thread.value|, failAt), imageReady)
      && forall i :: 0 <= i < k ==> IsMastodonThreadStatus(after, |before|, |mediaBefore|, thread.value, i, imageReady)
  }

  /** What a poster has sent so far, as a value. */
  datatype PosterState = BlueskyState(feed: seq<FeedPost>) | MastodonState(statuses: seq<Status>, media: seq<string>)

  function StateOf(platform: Platform): (r: PosterState)
    reads PosterOf(platform)
    ensures r.BlueskyState? <==> platform.BlueskyPlatform?
  {
    match platform
    case BlueskyPlatform(b) => BlueskyState(b.feed)
    case MastodonPlatform(m) => MastodonState(m.statuses, m.media)
  }

  /** A poster's state before and after post_to_all's step for it, on its platform. */
  ghost predicate PostedState(before: PosterState, after: PosterState, signed: (bool, bool), thread: Result<seq<Post>>,
                              imageReady: string -> bool, failAt: Option<nat>) {
    match before
    case BlueskyState(feed) =>
      after.BlueskyState? && BlueskyPosted(feed, after.feed, signed, thread, imageReady, failAt)
    case MastodonState(statuses, media) =>
      after.MastodonState? && MastodonPosted(statuses, after.statuses, media, after.media, signed, thread, imageReady, failAt)
  }

  /** Each registered poster went from its state in `before` to its state in
      `after` by posting its platform's thread, given the accounts' names and
      sign-in states. */
  ghost predicate AllPosted(before: seq<PosterState>, after: seq<PosterState>, accounts: seq<(string, (bool, bool))>,
                            bluesky: Result<seq<Post>>, mastodon: Result<seq<Post>>, imageReady: string -> bool,
                            failAt: string -> Option<nat>) {
    && |before| == |accounts| && |after| == |accounts|
    && forall j :: 0 <= j < |accounts| ==>
         PostedState(before[j], after[j], accounts[j].1, ThreadOf(accounts[j].0, bluesky, mastodon),
                     imageReady, failAt(accounts[j].0))
  }

  /** The first n accounts have posted, the others not yet. */
  ghost predicate PostedUpTo(before: seq<PosterState>, after: seq<PosterState>, accounts: seq<(string, (bool, bool))>,
                             n: nat, bluesky: Result<seq<Post>>, mastodon: Result<seq<Post>>, imageReady: string -> bool,
                             failAt: string -> Option<nat>) {
    && n <= |accounts| && |before| == |accounts| && |after| == |accounts|
    && (forall j :: 0 <= j < n ==>
          PostedState(before[j], after[j], accounts[j].1, ThreadOf(accounts[j].0, bluesky, mastodon),
                      imageReady, failAt(accounts[j].0)))
    && (forall j :: n <= j < |accounts| ==> after[j] == before[j])
  }

  /** post_to_all's step for account n extends the posting relation by one. */
  lemma PostedUpToStep(before: seq<PosterState>, after: seq<PosterState>, accounts: seq<(string, (bool, bool))>,
                       n: nat, bluesky: Result<seq<Post>>, mastodon: Result<seq<Post>>, imageReady: string -> bool,
                       failAt: string -> Option<nat>, state: PosterState)
    requires PostedUpTo(before, after, accounts, n, bluesky, mastodon, imageReady, failAt) && n < |accounts|
    requires PostedState(after[n], state, accounts[n].1, ThreadOf(accounts[n].0, bluesky, mastodon),
                         imageReady, failAt(accounts[n].0))
    ensures PostedUpTo(before, after[n := state], accounts, n + 1, bluesky, mastodon, imageReady, failAt)
  {
    hide PostedState;
  }

  /** Once every account has had its step, the posting relation holds for all. */
  lemma PostedUpToAll(before: seq<PosterState>, after: seq<PosterState>, accounts: seq<(string, (bool, bool))>,
                      bluesky: Result<seq<Post>>, mastodon: Result<seq<Post>>, imageReady: string -> bool,
                      failAt: string -> Option<nat>)
    requires PostedUpTo(before, after, accounts, |accounts|, bluesky, mastodon, imageReady, failAt)
    ensures AllPosted(before, after, accounts, bluesky, mastodon, imageReady, failAt)
  {
    hide PostedState;
  }

  /** The thread the formatter gives a platform name in post_to_all: the limit
      follows from the name. */
  function ThreadFor(data: SpaceWeather.SpaceWeatherData, name: string, now: Formatter.UtcTime): Result<seq<Post>> {
    CallFormatThreadPosts(2, data, FormatterPlatform(name), now)
  }

  /** The formatted thread that belongs to a platform name, given the Bluesky and
      the Mastodon threads. */
  function ThreadOf(name: string, bluesky: Result<seq<Post>>, mastodon: Result<seq<Post>>): Result<seq<Post>> {
    if name == "Bluesky" then bluesky else mastodon
  }

  /** A registered platform as post_to_all sees it: its name and its sign-in state. */
  function Account(platform: Platform): (string, (bool, bool))
    reads PosterOf(platform)
  {
    (PlatformName(platform), Signed(platform))
  }

  function PostersOf(platforms: seq<Platform>): set<object> {
    set i | 0 <= i < |platforms| :: PosterOf(platforms[i])
  }

  /** The accounts of the registered platforms, in registration order. */
  function Accounts(platforms: seq<Platform>): (r: seq<(string, (bool, bool))>)
    reads PostersOf(platforms)
    ensures |r| == |platforms| && forall i :: 0 <= i < |platforms| ==> r[i] == Account(platforms[i])
  {
    if |platforms| == 0 then []
    else
      var last := platforms[|platforms| - 1];
      assert PostersOf(platforms[..|platforms| - 1]) <= PostersOf(platforms) by {
        forall o | o in PostersOf(platforms[..|platforms| - 1])
          ensures o in PostersOf(platforms)
        {
          var i :| 0 <= i < |platforms| - 1 && o == PosterOf(platforms[..|platforms| - 1][i]);
          assert o == PosterOf(platforms[i]);
        }
      }
      assert PosterOf(last) in PostersOf(platforms);
      Accounts(platforms[..|platforms| - 1]) + [Account(last)]
  }

  /** The states of the registered posters, in registration order. */
  function States(platforms: seq<Platform>): (r: seq<PosterState>)
    reads PostersOf(platforms)
    ensures |r| == |platforms| && forall i :: 0 <= i < |platforms| ==> r[i] == StateOf(platforms[i])
  {
    if |platforms| == 0 then []
    else
      var last := platforms[|platforms| - 1];
      assert PostersOf(platforms[..|platforms| - 1]) <= PostersOf(platforms) by {
        forall o | o in PostersOf(platforms[..|platforms| - 1])
          ensures o in PostersOf(platforms)
        {
          var i :| 0 <= i < |platforms| - 1 && o == PosterOf(platforms[..|platforms| - 1][i]);
          assert o == PosterOf(platforms[i]);
        }
      }
      assert PosterOf(last) in PostersOf(platforms);
      States(platforms[..|platforms| - 1]) + [StateOf(last)]
  }

  /** The result post_to_all records for an account: its thread must format without
      error and then be delivered. */
  predicate Outcome(account: (string, (bool, bool)), thread: Result<seq<Post>>, failAt: string -> Option<nat>) {
    thread.Ok? && Delivers(account.1, account.0, |thread.value|, failAt)
  }

  /** The (name, result) pair of each account in turn. */
  function Reports(accounts: seq<(string, (bool, bool))>, bluesky: Result<seq<Post>>, mastodon: Result<seq<Post>>,
                   failAt: string -> Option<nat>): (r: seq<(string, bool)>)
    ensures |r| == |accounts|
    ensures forall i :: 0 <= i < |accounts| ==>
              r[i].0 == accounts[i].0 && (r[i].1 <==> Outcome(accounts[i], ThreadOf(accounts[i].0, bluesky, mastodon), failAt))
  {
    seq(|accounts|, i requires 0 <= i < |accounts| =>
      (accounts[i].0, Outcome(accounts[i], ThreadOf(accounts[i].0, bluesky, mastodon), failAt)))
  }

  /** Every name reported False. */
  function Failures(names: seq<string>): (r: seq<(string, bool)>)
    ensures |r| == |names| && forall i :: 0 <= i < |names| ==> r[i] == (names[i], false)
  {
    seq(|names|, i requires 0 <= i < |names| => (names[i], false))
  }

  /** The results dictionary filled in order: each name is set to its result, so a
      later platform of the same name overwrites an earlier one. */
  function Tally(reports: seq<(string, bool)>): map<string, bool>
    decreases |reports|
  {
    if |reports| == 0 then map[]
    else Tally(reports[..|reports| - 1])[reports[|reports| - 1].0 := reports[|reports| - 1].1]
  }

  /** The dictionary has one entry per distinct name, holding the result of the
      last report under that name. */
  lemma {:induction false} TallyEntries(reports: seq<(string, bool)>)
    ensures Tally(reports).Keys == set i | 0 <= i < |reports| :: reports[i].0
    ensures forall i :: 0 <= i < |reports| && (forall j :: i < j < |reports| ==> reports[j].0 != reports[i].0) ==>
              Tally(reports)[reports[i].0] == reports[i].1
    decreases |reports|
  {
    if |reports| > 0 {
      var n := |reports| - 1;
      TallyEntries(reports[..n]);
      assert forall i :: 0 <= i < n ==> reports[..n][i] == reports[i];
      assert (set i | 0 <= i < |reports| :: reports[i].0) == (set i | 0 <= i < n :: reports[..n][i].0) + {reports[n].0};
    }
  }

  /** When every report is False, so is every entry. */
  lemma {:induction false} TallyAllFalse(reports: seq<(string, bool)>)
    requires forall i :: 0 <= i < |reports| ==> !reports[i].1
    ensures forall name :: name in Tally(reports) ==> !Tally(reports)[name]
    decreases |reports|
  {
    if |reports| > 0 {
      var n := |reports| - 1;
      TallyAllFalse(reports[..n]);
    }
  }

  lemma TallyStep(reports: seq<(string, bool)>, i: nat)
    requires i < |reports|
    ensures Tally(reports[..i + 1]) == Tally(reports[..i])[reports[i].0 := reports[i].1]
  {
    assert reports[..i + 1][..i] == reports[..i];
  }

  class SocialMediaManager {
    var platforms: seq<Platform>

    constructor()
      ensures platforms == [] && Valid()
    {
      platforms := [];
    }

    /** Every registered platform has a poster of its own: each add_* call creates
        a new one. */
    predicate Valid()
      reads this
    {
      forall i, j :: 0 <= i < j < |platforms| ==> PosterOf(platforms[i]) != PosterOf(platforms[j])
    }

    /** The poster objects post_to_all may change. */
    function Posters(): set<object>
      reads this
    {
      PostersOf(platforms)
    }

    /** get_platform_names: the names in registration order. */
    function PlatformNames(): seq<string>
      reads this
    {
      NamesOf(platforms)
    }

    /** get_platform_count: one per registered platform, so the length of the name
        list. */
    function PlatformCount(): (n: nat)
      reads this
      ensures n == |PlatformNames()|
    {
      |platforms|
    }

    /** add_bluesky: a new poster is registered exactly when it authenticates. */
    method AddBluesky(handle: string, appPassword: string, loginSucceeds: bool) returns (added: bool)
      requires Valid()
      modifies this`platforms
      ensures Valid()
      ensures added == loginSucceeds
      ensures !added ==> platforms == old(platforms)
      ensures added ==> && |platforms| == |old(platforms)| + 1 && platforms[..|old(platforms)|] == old(platforms)
                        && platforms[|old(platforms)|].BlueskyPlatform?
                        && fresh(platforms[|old(platforms)|].bluesky)
                        && platforms[|old(platforms)|].bluesky.handle == handle
                        && platforms[|old(platforms)|].bluesky.appPassword == appPassword
                        && platforms[|old(platforms)|].bluesky.authenticated
      ensures PlatformNames() == old(PlatformNames()) + (if added then ["Bluesky"] else [])
    {
      var poster := new BlueskyPoster(handle, appPassword);
      var ok := poster.Authenticate(loginSucceeds);
      if ok {
        platforms := platforms + [BlueskyPlatform(poster)];
        assert platforms[..|platforms| - 1] == old(platforms);
        return true;
      }
      return false;
    }

    /** add_mastodon: a new poster is registered exactly when it authenticates. */
    method AddMastodon(apiBaseUrl: string, accessToken: string, clientId: Option<string>, clientSecret: Option<string>,
                       verifySucceeds: bool) returns (added: bool)
      requires Valid()
      modifies this`platforms
      ensures Valid()
      ensures added == verifySucceeds
      ensures !added ==> platforms == old(platforms)
      ensures added ==> && |platforms| == |old(platforms)| + 1 && platforms[..|old(platforms)|] == old(platforms)
                        && platforms[|old(platforms)|].MastodonPlatform?
                        && fresh(platforms[|old(platforms)|].mastodon)
                        && platforms[|old(platforms)|].mastodon.apiBaseUrl == apiBaseUrl
                        && platforms[|old(platforms)|].mastodon.accessToken == accessToken
                        && platforms[|old(platforms)|].mastodon.authenticated
      ensures PlatformNames() == old(PlatformNames()) + (if added then ["Mastodon"] else [])
    {
      var poster := new MastodonPoster(apiBaseUrl, accessToken, clientId, clientSecret);
      var ok := poster.Authenticate(verifySucceeds);
      if ok {
        platforms := platforms + [MastodonPlatform(poster)];
        assert platforms[..|platforms| - 1] == old(platforms);
        return true;
      }
      return false;
    }

    /** post_to_all as written: the formatter is called with a third argument, the
        TypeError is caught, and every platform reports False; nothing is posted. */
    method PostToAllAsWritten(data: SpaceWeather.SpaceWeatherData, now: Formatter.UtcTime, failAt: string -> Option<nat>)
      returns (results: map<string, bool>)
      ensures results == Tally(Failures(PlatformNames()))
    {
      results := map[];
      ghost var reports := Failures(PlatformNames());
      var i := 0;
      while i < |platforms|
        invariant 0 <= i <= |platforms|
        invariant results == Tally(reports[..i])
      {
        var name := PlatformName(platforms[i]);
        var formatted := CallFormatThreadPosts(3, data, FormatterPlatform(name), now);
        ThreeArgumentCallRaises(data, FormatterPlatform(name), now);
        var signed := Signed(platforms[i]);
        var success := match formatted
          case Err(_) => false
          case Ok(posts) => Delivers(signed, name, |posts|, failAt);
        TallyStep(reports, i);
        results := results[name := success];
        i := i + 1;
      }
      assert reports[..i] == reports;
    }

    /** post_to_all with the formatter called as format_thread_posts(data, platform):
        each platform formats its own thread and posts it; a formatting error or a
        failed post gives False, in registration order. */
    method PostToAll(data: SpaceWeather.SpaceWeatherData, now: Formatter.UtcTime, imageReady: string -> bool,
                     failAt: string -> Option<nat>) returns (results: map<string, bool>)
      requires Valid()
      modifies Posters()
      ensures forall j :: 0 <= j < |platforms| ==> Signed(platforms[j]) == old(Signed(platforms[j]))
      ensures results == Tally(Reports(old(Accounts(platforms)), ThreadFor(data, "Bluesky", now),
                                       ThreadFor(data, "Mastodon", now), failAt))
      ensures AllPosted(old(States(platforms)), States(platforms), old(Accounts(platforms)),
                        ThreadFor(data, "Bluesky", now), ThreadFor(data, "Mastodon", now), imageReady, failAt)
    {
      hide ThreadFor;
      ghost var bluesky := ThreadFor(data, "Bluesky", now);
      ghost var mastodon := ThreadFor(data, "Mastodon", now);
      ghost var accounts := Accounts(platforms);
      ghost var before := States(platforms);
      assert this !in Posters();
      results := PostEach(platforms, data, now, imageReady, failAt);
      PostedUpToAll(before, States(platforms), accounts, bluesky, mastodon, imageReady, failAt);
      assert forall j :: 0 <= j < |platforms| ==> Account(platforms[j]) == accounts[j];
    }
  }

  /** The formatting step of post_to_all: the platform key its name gives lays a
      Bluesky platform's thread out at 300 characters and every other one at 500. */
  lemma ThreadLimitOfPlatform(data: SpaceWeather.SpaceWeatherData, platform: Platform, now: Formatter.UtcTime)
    ensures var limit := if platform.BlueskyPlatform? then 300 else 500;
            ThreadFor(data, PlatformName(platform), now)
            == Formatter.GuardThread(Formatter.ThreadLayout(data, limit, now), limit)
  {
    hide Formatter.GuardThread, Formatter.ThreadLayout;
    assert Formatter.CharLimit(FormatterPlatform(PlatformName(platform))) == if platform.BlueskyPlatform? then 300 else 500;
  }

  /** The loop of post_to_all: each registered platform, in registration order,
      formats its own thread and posts it, and its result is recorded under its name. */
  method PostEach(platforms: seq<Platform>, data: SpaceWeather.SpaceWeatherData, now: Formatter.UtcTime,
                  imageReady: string -> bool, failAt: string -> Option<nat>)
    returns (results: map<string, bool>)
    requires forall i, j :: 0 <= i < j < |platforms| ==> PosterOf(platforms[i]) != PosterOf(platforms[j])
    modifies PostersOf(platforms)
    ensures results == Tally(Reports(old(Accounts(platforms)), ThreadFor(data, "Bluesky", now),
                                     ThreadFor(data, "Mastodon", now), failAt))
    ensures Accounts(platforms) == old(Accounts(platforms))
    ensures PostedUpTo(old(States(platforms)), States(platforms), old(Accounts(platforms)), |platforms|,
                       ThreadFor(data, "Bluesky", now), ThreadFor(data, "Mastodon", now), imageReady, failAt)
  {
    hide ThreadFor;
    ghost var bluesky := ThreadFor(data, "Bluesky", now);
    ghost var mastodon := ThreadFor(data, "Mastodon", now);
    ghost var accounts := Accounts(platforms);
    ghost var before := States(platforms);
    ghost var after := before;
    assert PostedUpTo(before, after, accounts, 0, bluesky, mastodon, imageReady, failAt);
    ghost var reports := Reports(accounts, bluesky, mastodon, failAt);
    assert Tally(reports[..0]) == map[];
    hide PostedState, PostedUpTo, Accounts, States, Reports, Tally, StateOf;
    results := map[];
    var i := 0;
    while i < |platforms|
      invariant 0 <= i <= |platforms|
      invariant results == Tally(reports[..i])
      invariant Accounts(platforms) == accounts && States(platforms) == after
      invariant PostedUpTo(before, after, accounts, i, bluesky, mastodon, imageReady, failAt)
    {
      assert PosterOf(platforms[i]) in PostersOf(platforms);
      assert forall j :: 0 <= j < |platforms| && j != i ==> PosterOf(platforms[j]) != PosterOf(platforms[i]);
      var formatted := ThreadFor(data, PlatformName(platforms[i]), now);
      ThreadOfPlatform(data, platforms[i], now);
      results, after := PostStep(platforms, i, results, formatted, imageReady, failAt, accounts, before, after, reports,
                                 bluesky, mastodon);
      i := i + 1;
    }
    assert reports[..i] == reports;
  }

  /** One turn of post_to_all's loop: platform i posts the thread formatted for
      it, and its result is recorded under its name. The result is its report,
      its poster's state moves on by posting, and no other registered poster changes. */
  method PostStep(platforms: seq<Platform>, i: nat, results: map<string, bool>, formatted: Result<seq<Post>>,
                  imageReady: string -> bool, failAt: string -> Option<nat>,
                  ghost accounts: seq<(string, (bool, bool))>, ghost before: seq<PosterState>,
                  ghost after: seq<PosterState>, ghost reports: seq<(string, bool)>,
                  ghost bluesky: Result<seq<Post>>, ghost mastodon: Result<seq<Post>>)
    returns (results': map<string, bool>, ghost after': seq<PosterState>)
    requires i < |platforms|
    requires forall j :: 0 <= j < |platforms| && j != i ==> PosterOf(platforms[j]) != PosterOf(platforms[i])
    requires Accounts(platforms) == accounts && States(platforms) == after
    requires reports == Reports(accounts, bluesky, mastodon, failAt)
    requires results == Tally(reports[..i])
    requires PostedUpTo(before, after, accounts, i, bluesky, mastodon, imageReady, failAt)
    requires formatted == ThreadOf(PlatformName(platforms[i]), bluesky, mastodon)
    modifies PosterOf(platforms[i])
    ensures results' == Tally(reports[..i + 1])
    ensures Accounts(platforms) == accounts && States(platforms) == after'
    ensures PostedUpTo(before, after', accounts, i + 1, bluesky, mastodon, imageReady, failAt)
  {
    hide PostedState, PostedUpTo;
    var platform := platforms[i];
    assert Account(platform) == accounts[i];
    assert StateOf(platform) == after[i];
    var success := PostFormatted(platform, formatted, imageReady, failAt, platforms, i);
    assert success == reports[i].1;
    TallyStep(reports, i);
    results' := results[PlatformName(platform) := success];
    PostedUpToStep(before, after, accounts, i, bluesky, mastodon, imageReady, failAt, StateOf(platform));
    after' := after[i := StateOf(platform)];
  }

  /** A registered platform's thread is the Bluesky or the Mastodon one. */
  lemma ThreadOfPlatform(data: SpaceWeather.SpaceWeatherData, platform: Platform, now: Formatter.UtcTime)
    ensures ThreadFor(data, PlatformName(platform), now)
            == ThreadOf(PlatformName(platform), ThreadFor(data, "Bluesky", now), ThreadFor(data, "Mastodon", now))
  {
    hide ThreadFor;
  }

  /** The posting step of post_to_all: a thread that failed to format gives False,
      otherwise the poster's post_thread decides. The sign-in state is left as it
      was. */
  method PostFormatted(platform: Platform, formatted: Result<seq<Post>>, imageReady: string -> bool,
                       failAt: string -> Option<nat>, ghost others: seq<Platform>, ghost k: nat) returns (success: bool)
    requires k < |others| && others[k] == platform
    requires forall j :: 0 <= j < |others| && j != k ==> PosterOf(others[j]) != PosterOf(platform)
    modifies PosterOf(platform)
    ensures success == Outcome(old(Account(platform)), formatted, failAt)
    ensures PostedState(old(StateOf(platform)), StateOf(platform), old(Signed(platform)), formatted, imageReady,
                        failAt(PlatformName(platform)))
    ensures Accounts(others) == old(Accounts(others))
    ensures States(others) == old(States(others))[k := StateOf(platform)]
  {
    success := false;
    if formatted.Ok? {
      var name := PlatformName(platform);
      match platform {
        case BlueskyPlatform(poster) =>
          success := poster.PostThread(formatted.value, imageReady, failAt(name));
        case MastodonPlatform(poster) =>
          success := poster.PostThread(formatted.value, imageReady, failAt(name));
      }
    }
    forall j | 0 <= j < |others|
      ensures Account(others[j]) == old(Account(others[j]))
    {
      match others[j]
      case BlueskyPlatform(b) =>
      case MastodonPlatform(m) =>
    }
    forall j | 0 <= j < |others| && j != k
      ensures StateOf(others[j]) == old(StateOf(others[j]))
    {
      assert PosterOf(others[j]) != PosterOf(platform);
    }
  }
}
