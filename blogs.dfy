/**
 * The blog listing (`src/pages/Blogs.tsx`): each card shows the first
 * words of the article followed by an ellipsis, a Read More button when
 * something was cut, and the author's display name.
 */
module Blogs {
  import opened Wrappers
  import opened Strings

  /** `{ content, isTruncated }`. */
  datatype Truncated = Truncated(content: string, isTruncated: bool)

  const Ellipsis: string := "..."
  /** The default `wordLimit`. */
  const DefaultWordLimit: nat := 0
  /** The limit the listing uses. */
  const ListingWordLimit: nat := 50

  /** The words of a text: its pieces between single spaces (empty pieces included). */
  function Words(content: string): seq<string> {
    Split(content, ' ')
  }

  /**
   * `truncateContent`: cut when there are more words than the limit,
   * keeping the first `wordLimit` of them, joined by spaces, then the
   * ellipsis; otherwise the text unchanged.
   */
  function TruncateContent(content: string, wordLimit: nat): (r: Truncated)
    ensures r.isTruncated <==> |Words(content)| > wordLimit
    ensures !r.isTruncated ==> r.content == content
    ensures r.isTruncated ==> r.content == Join(Words(content)[..wordLimit], ' ') + Ellipsis
  {
    var words := Words(content);
    var isTruncated := |words| > wordLimit;
    Truncated(if isTruncated then Join(words[..wordLimit], ' ') + Ellipsis else content, isTruncated)
  }

  /**
   * A cut text shows a prefix of the article that ends just before a space
   * and has exactly `wordLimit` words, then the ellipsis.
   */
  lemma TruncatedShowsLeadingWords(content: string, wordLimit: nat)
    requires wordLimit >= 1 && TruncateContent(content, wordLimit).isTruncated
    ensures var r := TruncateContent(content, wordLimit).content;
            var shown := r[..|r| - |Ellipsis|];
            && r == shown + Ellipsis
            && shown < content && content[|shown|] == ' '
            && Words(shown) == Words(content)[..wordLimit]
  {
    var words := Words(content);
    var shown := Join(words[..wordLimit], ' ');
    var r := shown + Ellipsis;
    assert r[..|r| - |Ellipsis|] == shown;
    JoinSplit(content, ' ');
    assert words == words[..wordLimit] + words[wordLimit..];
    JoinAppend(words[..wordLimit], words[wordLimit..], ' ');
    assert content == shown + [' '] + Join(words[wordLimit..], ' ');
    assert content[|shown|] == ' ';
    assert shown == content[..|shown|];
    SplitJoin(words[..wordLimit], ' ');
  }

  /** With the default limit every text, even the empty one, becomes a bare ellipsis and counts as cut. */
  lemma DefaultLimitShowsOnlyEllipsis(content: string)
    ensures TruncateContent(content, DefaultWordLimit) == Truncated(Ellipsis, true)
  {
    assert Words(content)[..0] == [];
  }

  /** The listing shows Read More exactly when the article has more than 50 words. */
  function ShowReadMore(content: string): (b: bool)
    ensures b <==> |Words(content)| > ListingWordLimit
  {
    TruncateContent(content, ListingWordLimit).isTruncated
  }

  /** The card's author: the credit, else the profile's username, else "Anonymous"; never blank. */
  function AuthorName(authorCredit: Option<string>, username: Option<string>): (r: string)
    ensures r != ""
    ensures Truthy(authorCredit) ==> r == authorCredit.value
    ensures !Truthy(authorCredit) && Truthy(username) ==> r == username.value
    ensures !Truthy(authorCredit) && !Truthy(username) ==> r == "Anonymous"
  {
    if Truthy(authorCredit) then authorCredit.value
    else if Truthy(username) then username.value
    else "Anonymous"
  }
}
