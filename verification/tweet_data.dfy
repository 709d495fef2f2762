/**
 The text of a share-on-Twitter request: an optional message, an optional list
 of hashtags and an optional URL, rendered either as the raw text of a tweet or
 as the parameter string of a web intent.

 A C# `null` reference is `Null`. A `null` element inside the hashtag list is
 not distinguished from the empty string: string interpolation and string
 concatenation both render `null` as "", so every output is the same.
 */
module TweetData {
  import opened Nullable

  datatype TweetData = TweetData(message: Nullable<string>, url: Nullable<string>, hashTags: Nullable<seq<string>>)

  // ---------------------------------------------------------------------------
  // Reference definitions
  // ---------------------------------------------------------------------------

  /** The message, with `null` read as the empty string. */
  function MessageText(d: TweetData): (r: string)
    ensures d.message.NonNull? ==> r == d.message.value
    ensures d.message.Null? ==> r == ""
  {
    d.message.ValueOr("")
  }

  /** Hashtags are rendered only for a non-null, non-empty list. */
  predicate HasHashTags(d: TweetData) {
    d.hashTags.NonNull? && |d.hashTags.value| != 0
  }

  /** Each tag as " #tag", in list order. */
  function HashtagRun(tags: seq<string>): string {
    if |tags| == 0 then "" else " #" + tags[0] + HashtagRun(tags[1..])
  }

  /** The tags separated by single commas. */
  function Join(tags: seq<string>): string {
    if |tags| == 0 then ""
    else if |tags| == 1 then tags[0]
    else tags[0] + "," + Join(tags[1..])
  }

  /** The pieces of `s` between its commas; the inverse of `Join`. */
  function SplitOnComma(s: string): (parts: seq<string>)
    ensures |parts| >= 1
  {
    if |s| == 0 then [""]
    else
      var rest := SplitOnComma(s[1..]);
      if s[0] == ',' then [""] + rest else [[s[0]] + rest[0]] + rest[1..]
  }

  /** Total length of the tags. */
  function TagsLength(tags: seq<string>): nat {
    if |tags| == 0 then 0 else |tags[0]| + TagsLength(tags[1..])
  }

  /** `t` is a suffix of `s`. */
  predicate EndsWith(s: string, t: string) {
    |t| <= |s| && s[|s| - |t|..] == t
  }

  /** A suffix stays a suffix when text is put in front. */
  lemma EndsWithPrepend(a: string, s: string, t: string)
    requires EndsWith(s, t)
    ensures EndsWith(a + s, t)
  {
    assert (a + s)[|a + s| - |t|..] == s[|s| - |t|..];
  }

  /** The raw tweet: message, then the hashtags, then the URL after a space. */
  function RawMessage(d: TweetData): (r: string)
    ensures MessageText(d) <= r
    ensures d.url.NonNull? ==> EndsWith(r, " " + d.url.value)
  {
    MessageText(d)
    + (if HasHashTags(d) then HashtagRun(d.hashTags.value) else "")
    + (if d.url.NonNull? then " " + d.url.value else "")
  }

  /** The intent parameters: message, then `&hashtags=` with the tags joined
      by commas, then `&url=` with the URL. */
  function QueryString(d: TweetData): (r: string)
    ensures MessageText(d) <= r
    ensures d.url.NonNull? ==> EndsWith(r, "&url=" + d.url.value)
  {
    MessageText(d)
    + (if HasHashTags(d) then "&hashtags=" + Join(d.hashTags.value) else "")
    + (if d.url.NonNull? then "&url=" + d.url.value else "")
  }

  // ---------------------------------------------------------------------------
  // The generators
  // ---------------------------------------------------------------------------

  /** Appending one tag to the list appends one " #tag" to the run. */
  lemma {:induction false} HashtagRunSnoc(tags: seq<string>, t: string)
    ensures HashtagRun(tags + [t]) == HashtagRun(tags) + " #" + t
  {
    if |tags| == 0 {
      assert tags + [t] == [t];
    } else {
      assert (tags + [t])[1..] == tags[1..] + [t];
      HashtagRunSnoc(tags[1..], t);
    }
  }

  /** Appending one tag to a non-empty list appends a comma and the tag. */
  lemma {:induction false} JoinSnoc(tags: seq<string>, t: string)
    requires |tags| > 0
    ensures Join(tags + [t]) == Join(tags) + "," + t
  {
    if |tags| == 1 {
      assert (tags + [t])[1..] == [t];
    } else {
      assert (tags + [t])[1..] == tags[1..] + [t];
      JoinSnoc(tags[1..], t);
    }
  }

  /** The hashtag loop of `GenerateRawMessage`: " #tag" appended per tag. */
  method AppendHashtags(text: string, tags: seq<string>) returns (r: string)
    ensures r == text + HashtagRun(tags)
  {
    r := text;
    ghost var run := "";
    var i := 0;
    while i < |tags|
      invariant 0 <= i <= |tags|
      invariant run == HashtagRun(tags[..i])
      invariant r == text + run
    {
      HashtagRunSnoc(tags[..i], tags[i]);
      assert tags[..i + 1] == tags[..i] + [tags[i]];
      r := r + (" #" + tags[i]);
      run := run + (" #" + tags[i]);
      i := i + 1;
    }
    assert tags[..|tags|] == tags;
  }

  /** The hashtag loop of `GenerateQueryString`: the first tag, then ","
      and the tag for every further one. */
  method JoinHashtags(tags: seq<string>) returns (hashtags: string)
    requires |tags| != 0
    ensures hashtags == Join(tags)
  {
    hashtags := tags[0];
    var i := 1;
    while i < |tags|
      invariant 1 <= i <= |tags|
      invariant hashtags == Join(tags[..i])
    {
      JoinSnoc(tags[..i], tags[i]);
      assert tags[..i + 1] == tags[..i] + [tags[i]];
      hashtags := hashtags + ("," + tags[i]);
      i := i + 1;
    }
    assert tags[..|tags|] == tags;
  }

  /** `TweetData.GenerateRawMessage`. */
  method GenerateRawMessage(d: TweetData) returns (raw: string)
    ensures raw == RawMessage(d)
  {
    raw := if d.message.NonNull? then d.message.value else "";
    if d.hashTags.NonNull? && |d.hashTags.value| != 0 {
      raw := AppendHashtags(raw, d.hashTags.value);
    }
    if d.url.NonNull? {
      raw := raw + (" " + d.url.value);
    }
  }

  /** `TweetData.GenerateQueryString`. */
  method GenerateQueryString(d: TweetData) returns (query: string)
    ensures query == QueryString(d)
  {
    query := if d.message.NonNull? then d.message.value else "";
    if d.hashTags.NonNull? && |d.hashTags.value| != 0 {
      var hashtags := JoinHashtags(d.hashTags.value);
      query := query + ("&hashtags=" + hashtags);
    }
    if d.url.NonNull? {
      query := query + ("&url=" + d.url.value);
    }
  }

  // ---------------------------------------------------------------------------
  // Properties of the rendered text
  // ---------------------------------------------------------------------------

  /** Without hashtags and without a URL both renderings are the message alone. */
  lemma MessageOnly(d: TweetData)
    requires !HasHashTags(d) && d.url.Null?
    ensures RawMessage(d) == MessageText(d)
    ensures QueryString(d) == MessageText(d)
  {
  }

  /** The run of a concatenation is the concatenation of the runs: tags are
      rendered in list order, each exactly once. */
  lemma {:induction false} HashtagRunAppend(a: seq<string>, b: seq<string>)
    ensures HashtagRun(a + b) == HashtagRun(a) + HashtagRun(b)
  {
    if |a| == 0 {
      assert a + b == b;
    } else {
      assert (a + b)[1..] == a[1..] + b;
      HashtagRunAppend(a[1..], b);
    }
  }

  /** Every tag costs its own length plus two for " #". */
  lemma {:induction false} HashtagRunLength(tags: seq<string>)
    ensures |HashtagRun(tags)| == TagsLength(tags) + 2 * |tags|
  {
    if |tags| > 0 {
      HashtagRunLength(tags[1..]);
    }
  }

  /** Joining two non-empty lists puts exactly one comma between them. */
  lemma {:induction false} JoinAppend(a: seq<string>, b: seq<string>)
    requires |a| > 0 && |b| > 0
    ensures Join(a + b) == Join(a) + "," + Join(b)
  {
    if |a| == 1 {
      assert (a + b)[1..] == b;
    } else {
      assert (a + b)[1..] == a[1..] + b;
      JoinAppend(a[1..], b);
    }
  }

  /** A non-empty list joins to its tags plus one comma fewer than tags. */
  lemma {:induction false} JoinLength(tags: seq<string>)
    requires |tags| > 0
    ensures |Join(tags)| == TagsLength(tags) + |tags| - 1
  {
    if |tags| > 1 {
      JoinLength(tags[1..]);
    }
  }

  /** The joined text starts with the first tag and ends with the last: there
      is no leading or trailing comma. */
  lemma {:induction false} JoinBoundaries(tags: seq<string>)
    requires |tags| > 0
    ensures tags[0] <= Join(tags)
    ensures EndsWith(Join(tags), tags[|tags| - 1])
  {
    if |tags| > 1 {
      JoinBoundaries(tags[1..]);
      assert tags[1..][|tags[1..]| - 1] == tags[|tags| - 1];
      EndsWithPrepend(tags[0] + ",", Join(tags[1..]), tags[|tags| - 1]);
      assert Join(tags) == tags[0] + "," + Join(tags[1..]);
    }
  }

  /** A string without commas is a single piece. */
  lemma {:induction false} SplitWithoutComma(s: string)
    requires ',' !in s
    ensures SplitOnComma(s) == [s]
  {
    if |s| > 0 {
      SplitWithoutComma(s[1..]);
      assert [s[0]] + s[1..] == s;
    }
  }

  /** A comma after a comma-free prefix ends the first piece. */
  lemma {:induction false} SplitAtComma(t: string, rest: string)
    requires ',' !in t
    ensures SplitOnComma(t + "," + rest) == [t] + SplitOnComma(rest)
  {
    if |t| == 0 {
      assert t + "," + rest == "," + rest;
      assert ("," + rest)[1..] == rest;
    } else {
      var s := t + "," + rest;
      assert s[1..] == t[1..] + "," + rest;
      SplitAtComma(t[1..], rest);
      assert [t[0]] + t[1..] == t;
    }
  }

  /** Tags without commas are recovered from the `hashtags` parameter. */
  lemma {:induction false} JoinSplitRoundTrip(tags: seq<string>)
    requires |tags| > 0
    requires forall i | 0 <= i < |tags| :: ',' !in tags[i]
    ensures SplitOnComma(Join(tags)) == tags
  {
    if |tags| == 1 {
      SplitWithoutComma(tags[0]);
    } else {
      JoinSplitRoundTrip(tags[1..]);
      SplitAtComma(tags[0], Join(tags[1..]));
    }
  }

  /** The raw tweet is as long as its parts: the message, " #tag" per tag,
      and " url". */
  lemma RawMessageLength(d: TweetData)
    ensures |RawMessage(d)| ==
              |MessageText(d)|
              + (if HasHashTags(d) then TagsLength(d.hashTags.value) + 2 * |d.hashTags.value| else 0)
              + (if d.url.NonNull? then 1 + |d.url.value| else 0)
  {
    if HasHashTags(d) {
      HashtagRunLength(d.hashTags.value);
    }
  }

  /** The parameter string is as long as its parts: the message,
      "&hashtags=" with the tags and their separating commas, and "&url=url". */
  lemma QueryStringLength(d: TweetData)
    ensures |QueryString(d)| ==
              |MessageText(d)|
              + (if HasHashTags(d) then 10 + TagsLength(d.hashTags.value) + |d.hashTags.value| - 1 else 0)
              + (if d.url.NonNull? then 5 + |d.url.value| else 0)
  {
    if HasHashTags(d) {
      JoinLength(d.hashTags.value);
    }
  }
}
