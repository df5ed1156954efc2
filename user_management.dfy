/**
 * The helpers of the user-management page (src/pages/UserManagement.tsx):
 * the e-mail shortener of the users table, the two dialog flags driven by the
 * per-row action menu, and the numbered pagination buttons.
 */
module UserManagement {

  // ---------------------------------------------------------------------------
  // String splitting
  // ---------------------------------------------------------------------------

  /** `s.split(sep)`: the maximal runs of `s` between occurrences of `sep`. */
  function Split(s: string, sep: char): (parts: seq<string>)
    ensures |parts| >= 1
    ensures sep in s <==> |parts| >= 2
    ensures forall k :: 0 <= k < |parts| ==> sep !in parts[k]
    decreases |s|
  {
    if s == [] then [[]]
    else
      var rest := Split(s[1..], sep);
      if s[0] == sep then [[]] + rest
      else [[s[0]] + rest[0]] + rest[1..]
  }

  /** `parts.join(sep)`, the inverse of `Split`. */
  function Join(parts: seq<string>, sep: char): string
    requires |parts| >= 1
  {
    if |parts| == 1 then parts[0] else parts[0] + [sep] + Join(parts[1..], sep)
  }

  /** Joining the parts back with the separator gives the original string. */
  lemma {:induction false} JoinSplit(s: string, sep: char)
    ensures Join(Split(s, sep), sep) == s
    decreases |s|
  {
    if s != [] {
      var rest := Split(s[1..], sep);
      JoinSplit(s[1..], sep);
      if s[0] == sep {
        assert Split(s, sep)[1..] == rest;
      } else {
        var parts := Split(s, sep);
        assert parts[0] == [s[0]] + rest[0];
        if |rest| == 1 {
          assert |parts| == 1;
        } else {
          assert parts[1..] == rest[1..];
        }
      }
    }
  }

  /** Splitting at the first separator peels off the text before it. */
  lemma {:induction false} SplitAtFirst(first: string, sep: char, rest: string)
    requires sep !in first
    ensures Split(first + [sep] + rest, sep) == [first] + Split(rest, sep)
    decreases |first|
  {
    if first == [] {
      assert first + [sep] + rest == [sep] + rest;
      assert ([sep] + rest)[1..] == rest;
    } else {
      var s := first + [sep] + rest;
      assert s[0] == first[0];
      assert s[1..] == first[1..] + [sep] + rest;
      SplitAtFirst(first[1..], sep, rest);
      assert [first[0]] + first[1..] == first;
    }
  }

  // ---------------------------------------------------------------------------
  // shortenEmail
  // ---------------------------------------------------------------------------

  /** The text of the first domain character in a template literal: `undefined`
      when the domain part is empty. */
  function FirstCharText(domain: string): string
  {
    if |domain| == 0 then "undefined" else [domain[0]]
  }

  /** `shortenEmail`: the local part, "@", the first character of the domain, and "...".
      Without an "@" the source reads a character of `undefined` and throws. */
  function ShortenEmail(email: string): string
    requires '@' in email
  {
    var parts := Split(email, '@');
    var name := parts[0];
    var domain := parts[1];
    name + "@" + FirstCharText(domain) + "..."
  }

  /** An address with one "@" and a non-empty domain keeps its local part and the
      domain's first character. */
  lemma ShortenEmailOneAt(local: string, domain: string)
    requires '@' !in local && '@' !in domain && |domain| > 0
    ensures ShortenEmail(local + "@" + domain) == local + "@" + [domain[0]] + "..."
  {
    SplitAtFirst(local, '@', domain);
    assert Split(domain, '@') == [domain] by {
      JoinSplit(domain, '@');
    }
  }

  /** The result starts with the local part and "@" and is five characters longer
      than it when the domain part is not empty (thirteen, for "undefined", when it is). */
  lemma ShortenEmailShape(local: string, rest: string)
    requires '@' !in local
    ensures var r := ShortenEmail(local + "@" + rest);
      && |r| == |local| + (if |rest| > 0 && rest[0] != '@' then 5 else 13)
      && r[..|local| + 1] == local + "@"
  {
    SplitAtFirst(local, '@', rest);
    var domain := Split(rest, '@')[0];
    if |rest| > 0 && rest[0] != '@' {
      assert rest == [rest[0]] + rest[1..];
      assert |domain| > 0;
    } else if |rest| > 0 {
      assert rest == ['@'] + rest[1..];
      SplitAtFirst([], '@', rest[1..]);
    }
  }

  /** Only the first two split parts are read: text after a second "@" is ignored. */
  lemma ShortenEmailIgnoresSecondAt(local: string, domain: string, tail: string)
    requires '@' !in local && '@' !in domain
    ensures ShortenEmail(local + "@" + domain + "@" + tail) == ShortenEmail(local + "@" + domain)
  {
    assert local + "@" + domain + "@" + tail == local + "@" + (domain + "@" + tail);
    SplitAtFirst(local, '@', domain + "@" + tail);
    SplitAtFirst(domain, '@', tail);
    SplitAtFirst(local, '@', domain);
    JoinSplit(domain, '@');
  }

  // ---------------------------------------------------------------------------
  // The two dialog flags
  // ---------------------------------------------------------------------------

  /** Whether the edit-user and change-password dialogs are open. */
  datatype Dialogs = Dialogs(editOpen: bool, passwordOpen: bool)

  /** The effect of choosing `value` in a row's action menu. */
  function AfterAction(d: Dialogs, value: string): Dialogs
  {
    if value == "edit" then d.(editOpen := !d.editOpen)
    else if value == "reset" then d.(passwordOpen := !d.passwordOpen)
    else d
  }

  /** The effect of a dialog's close callback. */
  function AfterClose(d: Dialogs): Dialogs
  {
    Dialogs(false, false)
  }

  /** "edit" flips only the edit flag, "reset" only the password flag, and every
      other value ("desable", "delete", "") changes neither; the same choice twice
      restores the flags. */
  lemma ActionToggles(d: Dialogs, value: string)
    ensures AfterAction(d, value).editOpen == (d.editOpen != (value == "edit"))
    ensures AfterAction(d, value).passwordOpen == (d.passwordOpen != (value == "reset"))
    ensures AfterAction(AfterAction(d, value), value) == d
  {
  }

  /** Closing shuts both dialogs, whatever their state, and closing again changes nothing. */
  lemma CloseIdempotent(d: Dialogs)
    ensures !AfterClose(d).editOpen && !AfterClose(d).passwordOpen
    ensures AfterClose(AfterClose(d)) == AfterClose(d)
  {
  }

  /** The page's two dialog flags: `Eopen` (edit user) and `popen` (change password). */
  class UserDialogs {
    var popen: bool
    var eopen: bool

    function Dialog(): Dialogs
      reads this
    {
      Dialogs(eopen, popen)
    }

    constructor()
      ensures !eopen && !popen
    {
      popen := false;
      eopen := false;
    }

    /** `action`: the change handler of a row's action menu. */
    method Action(value: string)
      modifies this
      ensures Dialog() == AfterAction(old(Dialog()), value)
    {
      if value == "edit" {
        eopen := !eopen;
      } else if value == "reset" {
        popen := !popen;
      }
    }

    /** `close`: the close callback passed to both dialogs. */
    method Close()
      modifies this
      ensures Dialog() == AfterClose(old(Dialog()))
    {
      eopen := false;
      popen := false;
    }
  }

  // ---------------------------------------------------------------------------
  // Pagination
  // ---------------------------------------------------------------------------

  /** The number of users the page pretends to have. */
  const PageN: nat := 30

  /** `Array.from({length: pageN / 10}, (_, i) => i + 1)`: a fractional length is truncated. */
  function PageButtonLabels(pageN: nat): seq<int>
  {
    seq(pageN / 10, i => i + 1)
  }

  /** The page renders three numbered buttons, labelled 1, 2 and 3 in order. */
  lemma PaginationButtons()
    ensures PageButtonLabels(PageN) == [1, 2, 3]
  {
  }

  /** The labels increase strictly, so the button keys are distinct. */
  lemma PageButtonLabelsDistinct(pageN: nat)
    ensures forall i, j :: 0 <= i < j < |PageButtonLabels(pageN)| ==>
      PageButtonLabels(pageN)[i] < PageButtonLabels(pageN)[j]
  {
  }
}
