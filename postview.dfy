/** What `PostView` derives from a post before rendering it: the post to
    display and who boosted it, the image attachments for the gallery, the URL
    of a link card, and which identity labels appear. */
module PostDisplay {
  import opened Manfred

  /** The two stored properties of `PostView`. */
  datatype PostView = PostView(post: Post, booster: Option<Account>)

  /** `PostView.init(post:)`. `Post.displayPost` is computed by the Manfred
      package, whose code is not part of this model, so it is a parameter. */
  function MakePostView(post: Post, displayPost: Post -> Post): (v: PostView)
    ensures v.post == displayPost(post)
    ensures v.booster.Some? <==> post.reblog.Some?
    ensures v.booster.Some? ==> v.booster.value == post.account
  {
    PostView(displayPost(post), if post.reblog.Some? then Some(post.account) else None)
  }

  /** `media.filter { $0.type == .image }`. */
  function Images(media: seq<MediaAttachment>): (r: seq<MediaAttachment>)
    ensures |r| <= |media|
    ensures forall i :: 0 <= i < |r| ==> r[i].mediaType == Image
    ensures forall m :: m in r <==> m in media && m.mediaType == Image
    decreases |media|
  {
    if media == [] then []
    else (if media[0].mediaType == Image then [media[0]] else []) + Images(media[1..])
  }

  /** Filtering a concatenation filters each part in turn: the images keep
      their original order. */
  lemma {:induction false} ImagesOfConcat(a: seq<MediaAttachment>, b: seq<MediaAttachment>)
    ensures Images(a + b) == Images(a) + Images(b)
    decreases |a|
  {
    if a == [] {
      assert a + b == b;
    } else {
      assert (a + b)[0] == a[0];
      assert (a + b)[1..] == a[1..] + b;
      ImagesOfConcat(a[1..], b);
    }
  }

  /** Media that are all images pass through unchanged. */
  lemma {:induction false} ImagesOfImages(media: seq<MediaAttachment>)
    requires forall i :: 0 <= i < |media| ==> media[i].mediaType == Image
    ensures Images(media) == media
    decreases |media|
  {
    if media != [] {
      ImagesOfImages(media[1..]);
    }
  }

  /** `imageAttachments`: the image media, or nil when there is none. */
  function ImageAttachments(post: Post): (r: Option<seq<MediaAttachment>>)
    ensures r.None? <==> forall i :: 0 <= i < |post.media| ==> post.media[i].mediaType != Image
    ensures r.Some? ==> r.value == Images(post.media) && r.value != []
  {
    var images := Images(post.media);
    if images == [] then
      NoImageMeansEmpty(post.media);
      None
    else
      assert images[0] in post.media;
      Some(images)
  }

  lemma NoImageMeansEmpty(media: seq<MediaAttachment>)
    requires Images(media) == []
    ensures forall i :: 0 <= i < |media| ==> media[i].mediaType != Image
  {
    forall i | 0 <= i < |media| ensures media[i].mediaType != Image {
      assert media[i] in media;
    }
  }

  /** `Post.linkCardURL`: the card's URL when the post has a card of type link. */
  function LinkCardURL(post: Post): (r: Option<URL>)
    ensures r.Some? <==> post.card.Some? && post.card.value.cardType == Link
    ensures r.Some? ==> r.value == post.card.value.url
  {
    match post.card
    case None => None
    case Some(card) => if card.cardType == Link then Some(card.url) else None
  }

  /** Membership in Foundation's `CharacterSet.whitespacesAndNewlines`:
      U+0009 to U+000D, U+0085, the Unicode separator characters (Zs, Zl, Zp)
      and, as CoreFoundation defines the set, U+200B ZERO WIDTH SPACE. */
  predicate IsWhitespaceOrNewline(c: char) {
    || ('\t' <= c <= '\r')
    || c == ' ' || c == '\U{85}' || c == '\U{A0}' || c == '\U{1680}'
    || ('\U{2000}' <= c <= '\U{200B}')
    || c == '\U{2028}' || c == '\U{2029}' || c == '\U{202F}' || c == '\U{205F}' || c == '\U{3000}'
  }

  /** Drop the leading whitespace and newlines. */
  function TrimLeading(s: string): (r: string)
    ensures |r| <= |s|
    ensures r == s[|s| - |r|..]
    ensures r != [] ==> !IsWhitespaceOrNewline(r[0])
    ensures forall i :: 0 <= i < |s| - |r| ==> IsWhitespaceOrNewline(s[i])
    decreases |s|
  {
    if s != [] && IsWhitespaceOrNewline(s[0]) then TrimLeading(s[1..]) else s
  }

  /** Drop the trailing whitespace and newlines. */
  function TrimTrailing(s: string): (r: string)
    ensures |r| <= |s|
    ensures r == s[..|r|]
    ensures r != [] ==> !IsWhitespaceOrNewline(r[|r| - 1])
    ensures forall i :: |r| <= i < |s| ==> IsWhitespaceOrNewline(s[i])
    decreases |s|
  {
    if s != [] && IsWhitespaceOrNewline(s[|s| - 1]) then TrimTrailing(s[..|s| - 1]) else s
  }

  /** `r` is the slice of `s` starting at `a`, and everything of `s` before
      and after that slice is whitespace. */
  predicate TrimsTo(s: string, a: int, r: string) {
    && 0 <= a <= |s| - |r|
    && r == s[a..a + |r|]
    && (forall i :: 0 <= i < a ==> IsWhitespaceOrNewline(s[i]))
    && (forall i :: a + |r| <= i < |s| ==> IsWhitespaceOrNewline(s[i]))
  }

  /** `trimmingCharacters(in: .whitespacesAndNewlines)`: what is left of `s`
      neither starts nor ends with whitespace, it is a slice of `s` with only
      whitespace cut from both ends, and it is empty exactly when `s` is all
      whitespace. */
  function Trimmed(s: string): (r: string)
    ensures |r| <= |s|
    ensures r != [] ==> !IsWhitespaceOrNewline(r[0]) && !IsWhitespaceOrNewline(r[|r| - 1])
    ensures r == [] <==> forall i :: 0 <= i < |s| ==> IsWhitespaceOrNewline(s[i])
    ensures exists a :: TrimsTo(s, a, r)
  {
    var lead := TrimLeading(s);
    var r := TrimTrailing(lead);
    assert r == [] ==> lead == [];
    var a := |s| - |lead|;
    assert r == s[a..a + |r|];
    assert forall i :: a + |r| <= i < |s| ==> IsWhitespaceOrNewline(s[i]) by {
      forall i | a + |r| <= i < |s| ensures IsWhitespaceOrNewline(s[i]) {
        assert s[i] == lead[i - a];
      }
    }
    assert TrimsTo(s, a, r);
    r
  }

  /** The display name is shown when trimming leaves something, that is, when
      it has a character that is neither whitespace nor a newline. */
  function DisplayNameShown(displayName: string): (shown: bool)
    ensures shown <==> exists i :: 0 <= i < |displayName| && !IsWhitespaceOrNewline(displayName[i])
  {
    Trimmed(displayName) != []
  }

  /** The labels of a post's author line: the display name when it is shown,
      the handle always, the server when the username names one. */
  datatype Identity = Identity(displayName: Option<string>, handle: string, server: Option<string>)

  /** `identity` and `username` of `PostView`. */
  function IdentityOf(account: Account): (id: Identity)
    ensures id.displayName.Some? <==> DisplayNameShown(account.displayName)
    ensures id.displayName.Some? ==> id.displayName.value == account.displayName
    ensures id.handle == account.formattedUsernameComponents.handle
    ensures id.server.Some? <==> account.formattedUsernameComponents.server.Some?
    ensures id.server.Some? ==> id.server.value == account.formattedUsernameComponents.server.value
  {
    var c := account.formattedUsernameComponents;
    Identity(if DisplayNameShown(account.displayName) then Some(account.displayName) else None,
             c.handle, c.server)
  }

  /** A name made only of blanks and newlines, such as "  \n", is not shown. */
  lemma BlankNameHidden()
    ensures !DisplayNameShown("  \n")
    ensures DisplayNameShown(" Ann ")
  {
    assert !IsWhitespaceOrNewline(" Ann "[1]);
  }
}
