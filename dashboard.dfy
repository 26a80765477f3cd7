/**
 * The dashboard shell: the initials shown in the avatar and the test that
 * highlights the sidebar entry for the current page.
 */
module DashboardLayout {
  import opened Common

  /** `n[0]` joined as text: the first character, or "" for an empty part. */
  function Head(s: string): (r: string)
    ensures |r| <= 1 && (s != "" ==> r == [s[0]]) && (s == "" ==> r == "")
  {
    if s == "" then "" else [s[0]]
  }

  /**
   * The first character of every non-empty part, in order (`n[0]` of an empty part joins as "").
   * When no part is empty there is exactly one character per part.
   */
  function FirstChars(parts: seq<string>): (r: string)
    ensures |r| <= |parts|
    ensures (forall k :: 0 <= k < |parts| ==> parts[k] != "") ==>
      |r| == |parts| && forall k :: 0 <= k < |parts| ==> r[k] == parts[k][0]
  {
    if parts == [] then ""
    else Head(parts[0]) + FirstChars(parts[1..])
  }

  /** Taking first characters distributes over concatenation, so each part contributes its own head. */
  lemma {:induction false} FirstCharsAppend(a: seq<string>, b: seq<string>)
    ensures FirstChars(a + b) == FirstChars(a) + FirstChars(b)
  {
    if a == [] {
      assert a + b == b;
    } else {
      assert (a + b)[0] == a[0] && (a + b)[1..] == a[1..] + b;
      FirstCharsAppend(a[1..], b);
    }
  }

  /** The avatar text for the words of a name, each contributing its first letter: upper-cased, at most two. */
  function WordInitials(words: seq<string>): string
    requires forall k :: 0 <= k < |words| ==> words[k] != ""
  {
    Upper(seq(|words|, k requires 0 <= k < |words| => words[k][0]))[..Min(2, |words|)]
  }

  /** `getInitials`: "U" for a missing or empty name, else the upper-cased first letters, at most two. */
  function Initials(name: Option<string>): (r: string)
    ensures !Truthy(name) ==> r == "U"
    ensures |r| <= 2
    ensures forall i :: 0 <= i < |r| ==> !IsLower(r[i])
  {
    if !Truthy(name) then "U"
    else
      var letters := Upper(FirstChars(Split(name.value, ' ')));
      if |letters| <= 2 then letters else letters[..2]
  }

  /**
   * Any name made of non-empty words separated by single spaces: its initials are the first
   * letters of its first two words (of its only word, for a one-word name), upper-cased.
   */
  lemma WordsInitials(words: seq<string>)
    requires |words| >= 1
    requires forall k :: 0 <= k < |words| ==> words[k] != "" && ' ' !in words[k]
    ensures Initials(Some(Join(words, ' '))) == WordInitials(words)
  {
    SplitJoin(words, ' ');
  }

  /** Two space-free words give their two first letters, upper-cased. */
  lemma TwoWordInitials(first: string, last: string)
    requires first != "" && last != "" && ' ' !in first && ' ' !in last
    ensures Initials(Some(first + " " + last)) == [UpperChar(first[0]), UpperChar(last[0])]
  {
    WordsInitials([first, last]);
    assert Join([first, last], ' ') == first + " " + last;
  }

  /** A one-word name gives its first letter, upper-cased. */
  lemma OneWordInitial(word: string)
    requires word != "" && ' ' !in word
    ensures Initials(Some(word)) == [UpperChar(word[0])]
  {
    WordsInitials([word]);
  }

  /** A name of spaces only is truthy yet has no letters, so its initials are empty rather than "U". */
  lemma {:induction false} SpacesGiveNoInitials(n: nat)
    requires n > 0
    ensures Initials(Some(seq(n, i => ' '))) == ""
  {
    SplitSeparators(n, "", ' ');
    assert seq(n, i => ' ') + "" == seq(n, i => ' ');
    EmptyPartsNoChars(seq(n, i => "") + [""]);
  }

  lemma {:induction false} EmptyPartsNoChars(parts: seq<string>)
    requires forall k :: 0 <= k < |parts| ==> parts[k] == ""
    ensures FirstChars(parts) == ""
  {
    if parts != [] {
      EmptyPartsNoChars(parts[1..]);
    }
  }

  const MenuUrls: seq<string> := ["/dashboard", "/dashboard/hosting", "/dashboard/domains", "/dashboard/activity",
                                  "/dashboard/support"]
  const SettingsUrls: seq<string> := ["/profile", "/settings", "/billing"]

  /** A sidebar entry is highlighted when the path is exactly its url. */
  predicate IsActive(pathname: string, url: string): (active: bool)
    ensures active ==> |pathname| == |url|
  {
    pathname == url
  }

  /** The urls are distinct, so at most one sidebar entry is highlighted for any path. */
  lemma AtMostOneActive(pathname: string)
    ensures forall i, j :: 0 <= i < j < |MenuUrls + SettingsUrls| ==>
      !(IsActive(pathname, (MenuUrls + SettingsUrls)[i]) && IsActive(pathname, (MenuUrls + SettingsUrls)[j]))
  {
  }

  /** Matching is exact: no path strictly below an entry's url (a sub-page) highlights that entry. */
  lemma NoPrefixMatch(url: string, rest: string)
    requires rest != ""
    ensures !IsActive(url + rest, url)
  {
    assert |url + rest| > |url|;
  }
}
