/**
  Mapping from a Diun notification status to the style token of a Homer
  "message" card (get_homer_style). The lookup is case-insensitive and
  every status the table does not know falls back to the warning style.
*/
module Style {

  const Info := "is-info"
  const Success := "is-success"
  const Danger := "is-danger"
  const Warning := "is-warning"

  /** The four style tokens a card can carry. */
  predicate IsStyleToken(s: string) {
    s == Info || s == Success || s == Danger || s == Warning
  }

  /** ASCII lower-casing of one character. */
  function LowerChar(c: char): (r: char)
    ensures 'A' <= c <= 'Z' ==> 'a' <= r <= 'z' && r as int - c as int == 'a' as int - 'A' as int
    ensures !('A' <= c <= 'Z') ==> r == c
    ensures !('A' <= r <= 'Z')
  {
    if 'A' <= c <= 'Z' then (c as int - 'A' as int + 'a' as int) as char else c
  }

  /** ASCII lower-casing of a string, character by character (str.lower). */
  function Lower(s: string): (r: string)
    ensures |r| == |s|
    ensures forall i :: 0 <= i < |s| ==> r[i] == LowerChar(s[i])
  {
    if s == [] then [] else [LowerChar(s[0])] + Lower(s[1..])
  }

  /** Two strings that differ only in the case of their letters. */
  predicate SameIgnoringCase(s: string, t: string) {
    |s| == |t| && forall i :: 0 <= i < |s| ==> LowerChar(s[i]) == LowerChar(t[i])
  }

  /** The status table of get_homer_style, keyed by lower-case status. */
  const StatusMap: map<string, string> := map["new" := Info, "update" := Success, "error" := Danger]

  /** get_homer_style: look the lower-cased status up, default to the warning style. */
  function HomerStyle(status: string): (r: string)
    ensures IsStyleToken(r)
    ensures r == Info <==> SameIgnoringCase(status, "new")
    ensures r == Success <==> SameIgnoringCase(status, "update")
    ensures r == Danger <==> SameIgnoringCase(status, "error")
    ensures r == Warning <==> !(SameIgnoringCase(status, "new") || SameIgnoringCase(status, "update") || SameIgnoringCase(status, "error"))
  {
    LowerMatchesKey(status, "new");
    LowerMatchesKey(status, "update");
    LowerMatchesKey(status, "error");
    var key := Lower(status);
    if key in StatusMap then StatusMap[key] else Warning
  }

  /** A key of the table is already lower-case, so the lower-cased status equals
      it exactly when the status equals it up to case. */
  lemma LowerMatchesKey(s: string, key: string)
    requires Lower(key) == key
    ensures Lower(s) == key <==> SameIgnoringCase(s, key)
  {
    if SameIgnoringCase(s, key) {
      assert forall i :: 0 <= i < |s| ==> Lower(s)[i] == key[i] by {
        forall i | 0 <= i < |s| ensures Lower(s)[i] == key[i] {
          assert LowerChar(key[i]) == Lower(key)[i];
        }
      }
    }
  }

  /** Lower-casing twice is lower-casing once. */
  lemma {:induction false} LowerIdempotent(s: string)
    ensures Lower(Lower(s)) == Lower(s)
  {
    if s != [] {
      LowerIdempotent(s[1..]);
      assert Lower(s) == [LowerChar(s[0])] + Lower(s[1..]);
    }
  }

  /** The style does not depend on the case of the status. */
  lemma StyleIgnoresCase(s: string, t: string)
    requires SameIgnoringCase(s, t)
    ensures HomerStyle(s) == HomerStyle(t)
  {
    assert Lower(s) == Lower(t);
  }

  /** In particular the style of a status is the style of its lower-cased form. */
  lemma StyleOfLower(s: string)
    ensures HomerStyle(Lower(s)) == HomerStyle(s)
  {
    LowerIdempotent(s);
    StyleIgnoresCase(s, Lower(s));
  }

  /** The table's entries, an upper-case spelling, an unknown status and the
      empty status. */
  lemma StyleExamples()
    ensures HomerStyle("new") == Info && HomerStyle("NEW") == Info
    ensures HomerStyle("update") == Success && HomerStyle("Update") == Success
    ensures HomerStyle("error") == Danger
    ensures HomerStyle("banana") == Warning && HomerStyle("") == Warning
  {
    assert SameIgnoringCase("NEW", "new");
    assert SameIgnoringCase("Update", "update");
    assert !SameIgnoringCase("banana", "update") by {
      assert LowerChar("banana"[0]) != LowerChar("update"[0]);
    }
  }
}
