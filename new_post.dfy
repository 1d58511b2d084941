/**
  * The new-post card (`NewPost`): the post text composed from a shared link's query parameters
  * (`text`, `hashtags`, `url`, `via`) and the suspension guard in front of the new-post modal.
  */
module Composer {
  import opened Wrappers

  /** A query parameter is truthy when it is present and not the empty string. */
  predicate Truthy(v: Option<string>)
  {
    v.Some? && v.value != ""
  }

  /** `String.prototype.split` with a one-character separator: the pieces between separators, in order. */
  function Split(s: string, sep: char): (pieces: seq<string>)
    ensures |pieces| >= 1
    ensures forall i :: 0 <= i < |pieces| ==> sep !in pieces[i]
    decreases |s|
  {
    if s == [] then [""]
    else
      var rest := Split(s[1..], sep);
      if s[0] == sep then [""] + rest
      else [[s[0]] + rest[0]] + rest[1..]
  }

  /** `Array.prototype.join`: the result starts with the first piece. */
  function Join(pieces: seq<string>, sep: string): (joined: string)
    ensures pieces == [] ==> joined == ""
    ensures |pieces| >= 1 ==> pieces[0] <= joined
    decreases |pieces|
  {
    if pieces == [] then ""
    else if |pieces| == 1 then pieces[0]
    else pieces[0] + sep + Join(pieces[1..], sep)
  }

  /** Joining the pieces of a split with the same separator gives back the input. */
  lemma {:induction false} JoinSplit(s: string, sep: char)
    ensures Join(Split(s, sep), [sep]) == s
    decreases |s|
  {
    if s != [] {
      var rest := Split(s[1..], sep);
      JoinSplit(s[1..], sep);
      if s[0] == sep {
        assert Split(s, sep)[1..] == rest;
        assert s == [sep] + s[1..];
      } else {
        var pieces := Split(s, sep);
        assert pieces[1..] == rest[1..];
        if |rest| == 1 {
          assert s == [s[0]] + s[1..];
        } else {
          assert Join(rest, [sep]) == rest[0] + [sep] + Join(rest[1..], [sep]);
          assert s == [s[0]] + s[1..];
        }
      }
    }
  }

  /** One hashtag piece: `#${tag} `. */
  function Tag(piece: string): string
  {
    "#" + piece + " "
  }

  /** `.map((tag) => ...)` */
  function TagAll(pieces: seq<string>): (tags: seq<string>)
    ensures |tags| == |pieces|
    ensures forall i :: 0 <= i < |pieces| ==> tags[i] == Tag(pieces[i])
  {
    seq(|pieces|, i requires 0 <= i < |pieces| => Tag(pieces[i]))
  }

  /**
    * `hashtags.split(',').map((tag) => `#${tag} `).join('')`: never empty, even for an empty list:
    * it starts with the first piece's '#'.
    */
  function ProcessHashtags(hashtags: string): (processed: string)
    ensures |processed| >= 2 && processed[0] == '#'
  {
    Join(TagAll(Split(hashtags, ',')), "")
  }

  /** The hashtag list with every comma written as a space followed by '#'. */
  function CommasAsHashes(s: string): string
    decreases |s|
  {
    if s == [] then ""
    else (if s[0] == ',' then " #" else [s[0]]) + CommasAsHashes(s[1..])
  }

  lemma TaggedJoinCons(pieces: seq<string>)
    requires |pieces| >= 1
    ensures Join(TagAll(pieces), "") == Tag(pieces[0]) + Join(TagAll(pieces[1..]), "")
  {
    var tags := TagAll(pieces);
    if |pieces| > 1 {
      assert tags[1..] == TagAll(pieces[1..]);
    } else {
      assert TagAll(pieces[1..]) == [];
    }
  }

  /** Growing the first hashtag piece by one character grows the tagged text right after its '#'. */
  lemma PrependToFirstTag(c: char, first: string, tail: string, expected: string)
    requires Tag(first) + tail == "#" + expected + " "
    ensures Tag([c] + first) + tail == "#" + ([c] + expected) + " "
  {
    var lhs, rhs := first + " " + tail, expected + " ";
    assert Tag(first) + tail == "#" + lhs;
    assert "#" + expected + " " == "#" + rhs;
    assert lhs == ("#" + lhs)[1..] == ("#" + rhs)[1..] == rhs;
    assert Tag([c] + first) + tail == "#" + [c] + lhs;
    assert "#" + ([c] + expected) + " " == "#" + [c] + rhs;
  }

  /**
    * The processed hashtags are the list itself with '#' in front, every comma turned into " #", and a
    * trailing space: every piece is kept, in input order, and nothing else is added.
    */
  lemma {:induction false} HashtagsAsReplacement(hashtags: string)
    ensures ProcessHashtags(hashtags) == "#" + CommasAsHashes(hashtags) + " "
    decreases |hashtags|
  {
    var s := hashtags;
    if s == [] {
      assert Split(s, ',') == [""];
      TaggedJoinCons([""]);
    } else {
      var rest := Split(s[1..], ',');
      HashtagsAsReplacement(s[1..]);
      TaggedJoinCons(rest);
      var tail := Join(TagAll(rest[1..]), "");
      assert Tag(rest[0]) + tail == "#" + CommasAsHashes(s[1..]) + " ";
      if s[0] == ',' {
        var pieces := [""] + rest;
        assert Split(s, ',') == pieces;
        TaggedJoinCons(pieces);
        assert pieces[1..] == rest;
      } else {
        var pieces := [[s[0]] + rest[0]] + rest[1..];
        assert Split(s, ',') == pieces;
        TaggedJoinCons(pieces);
        assert pieces[1..] == rest[1..];
        PrependToFirstTag(s[0], rest[0], tail, CommasAsHashes(s[1..]));
      }
    }
  }

  /** `processedHashtags`: computed only for truthy hashtags. */
  function ProcessedHashtags(hashtags: Option<string>): Option<string>
  {
    if Truthy(hashtags) then Some(ProcessHashtags(hashtags.value)) else None
  }

  /** The post text: `text`, then the hashtag block, then `url`, then `via`, each only when present. */
  function ComposeContent(text: string, hashtags: Option<string>, url: Option<string>, via: Option<string>): (content: string)
    ensures text <= content
    ensures Truthy(via) ==>
      var suffix := "\n\nvia @" + via.value;
      |suffix| <= |content| && content[|content| - |suffix|..] == suffix
    ensures !Truthy(hashtags) && !Truthy(url) && !Truthy(via) ==> content == text
  {
    var processed := ProcessedHashtags(hashtags);
    text
      + (if Truthy(processed) then " " + processed.value + " " else "")
      + (if Truthy(url) then "\n\n" + url.value else "")
      + (if Truthy(via) then "\n\nvia @" + via.value else "")
  }

  /**
    * The post text in full: the hashtag block is there exactly when `hashtags` is non-empty (its
    * processed form is never empty) and reads " #a #b  " for "a,b"; `url` and `via` follow it.
    */
  lemma ComposedLayout(text: string, hashtags: Option<string>, url: Option<string>, via: Option<string>)
    ensures ComposeContent(text, hashtags, url, via) ==
      text
      + (if Truthy(hashtags) then " #" + CommasAsHashes(hashtags.value) + "  " else "")
      + (if Truthy(url) then "\n\n" + url.value else "")
      + (if Truthy(via) then "\n\nvia @" + via.value else "")
  {
    var processed := ProcessedHashtags(hashtags);
    var block := if Truthy(processed) then " " + processed.value + " " else "";
    if Truthy(hashtags) {
      HashtagsAsReplacement(hashtags.value);
      assert block == " #" + CommasAsHashes(hashtags.value) + "  ";
    } else {
      assert block == "";
    }
  }

  /** The shared-link query parameters the card reads. */
  datatype Query = Query(text: Option<string>, hashtags: Option<string>, url: Option<string>, via: Option<string>)

  class NewPost {
    /** Whether the current profile is suspended (`useProfileRestriction`). */
    const isSuspended: bool
    /** The global modal store's `showNewPostModal`. */
    var showNewPostModal: bool
    /** The global publication store's `publicationContent`. */
    var publicationContent: string
    /** `useUpdateEffect` bookkeeping: whether the card has rendered, and `isReady` at the last render. */
    var rendered: bool
    var lastIsReady: bool

    constructor (isSuspended: bool, showNewPostModal: bool, publicationContent: string)
      ensures this.isSuspended == isSuspended && !rendered
      ensures this.showNewPostModal == showNewPostModal && this.publicationContent == publicationContent
    {
      this.isSuspended := isSuspended;
      this.showNewPostModal := showNewPostModal;
      this.publicationContent := publicationContent;
      rendered := false;
      lastIsReady := false;
    }

    /** Opens the new-post modal unless the profile is suspended. */
    method OpenModal()
      modifies this`showNewPostModal
      ensures showNewPostModal == if isSuspended then old(showNewPostModal) else true
    {
      if isSuspended {
        return;
      }
      showNewPostModal := true;
    }

    /**
      * The effect body: once the router is ready and `text` is non-empty, the composed text becomes the
      * publication content (even for a suspended profile) and the modal opens unless suspended.
      */
    method ApplySharedLink(isReady: bool, query: Query)
      modifies this`showNewPostModal, this`publicationContent
      ensures if isReady && Truthy(query.text) then
          publicationContent == ComposeContent(query.text.value, query.hashtags, query.url, query.via) &&
          showNewPostModal == (if isSuspended then old(showNewPostModal) else true)
        else
          publicationContent == old(publicationContent) && showNewPostModal == old(showNewPostModal)
    {
      if isReady && Truthy(query.text) {
        var content := ComposeContent(query.text.value, query.hashtags, query.url, query.via);
        OpenModal();
        publicationContent := content;
      }
    }

    /** A render: `useUpdateEffect(..., [isReady])` runs the effect when `isReady` changed, but never on the first render. */
    method Render(isReady: bool, query: Query)
      modifies this
      ensures rendered && lastIsReady == isReady
      ensures if old(rendered) && old(lastIsReady) != isReady && isReady && Truthy(query.text) then
          publicationContent == ComposeContent(query.text.value, query.hashtags, query.url, query.via) &&
          showNewPostModal == (if isSuspended then old(showNewPostModal) else true)
        else
          publicationContent == old(publicationContent) && showNewPostModal == old(showNewPostModal)
    {
      if rendered && lastIsReady != isReady {
        ApplySharedLink(isReady, query);
      }
      rendered := true;
      lastIsReady := isReady;
    }
  }
}
