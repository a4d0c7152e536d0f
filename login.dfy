/** The login form of `components/Login.tsx`: two input fields, the error field that a
    rejected submission writes, the fixed credential test, and the role badge shown
    above the form. */
module LoginForms {
  import opened Options
  import opened Types

  function TestIds(): seq<string> {
    ["0991234567", "0812345678"]
  }

  const TestPassword: string := "12345678"

  const RejectionMessage: string :=
    "Identifiant ou mot de passe incorrect (Test: 0991234567 ou 0812345678 / Pass: 12345678)"

  /** The credential test: one of the two test ids, compared exactly, with the test
      password. */
  predicate Accepts(id: string, password: string) {
    id in TestIds() && password == TestPassword
  }

  /** Exactly two credential pairs pass, and nothing near them: no padding, no other
      password. */
  lemma AcceptedCredentials(id: string, password: string)
    ensures Accepts(id, password) <==>
      (id == "0991234567" || id == "0812345678") && password == "12345678"
    ensures Accepts(id, password) ==> |id| == 10 && |password| == 8
  {
  }

  class LoginForm {
    var id: string
    var password: string
    var error: string

    /** The three `useState('')` fields. */
    constructor ()
      ensures id == "" && password == "" && error == ""
    {
      id, password, error := "", "", "";
    }

    method EnterId(typed: string)
      modifies this
      ensures id == typed && password == old(password) && error == old(error)
    {
      id := typed;
    }

    method EnterPassword(typed: string)
      modifies this
      ensures password == typed && id == old(id) && error == old(error)
    {
      password := typed;
    }

    /** `handleSubmit`: on accepted credentials `onLogin(id)` is called with the id as
        entered (returned here) and the error field is left as it was; otherwise the
        rejection message is written and `onLogin` is not called. The role, province
        and structure props play no part. */
    method Submit() returns (loggedIn: Option<string>)
      modifies this
      ensures loggedIn.Some? <==> Accepts(id, password)
      ensures loggedIn.Some? ==> loggedIn.value == id && error == old(error)
      ensures loggedIn.None? ==> error == RejectionMessage && |error| > 0
      ensures id == old(id) && password == old(password)
    {
      if id in TestIds() && password == TestPassword {
        loggedIn := Some(id);
      } else {
        error := RejectionMessage;
        loggedIn := None;
      }
    }
  }

  // ---------------------------------------------------------------------------
  // the role badge

  /** `role.replace('_', ' ')` as written: a string pattern replaces only its first
      occurrence; everything before it and everything after it is kept. */
  function ReplaceFirst(s: string, from: char, to: char): (r: string)
    ensures |r| == |s|
    ensures from !in s ==> r == s
    ensures forall i :: 0 <= i < |s| ==> r[i] == s[i] || (s[i] == from && r[i] == to && from !in s[..i])
    ensures forall i :: 0 <= i < |s| && s[i] == from && from !in s[..i] ==> r[i] == to
    decreases |s|
  {
    if |s| == 0 then s
    else if s[0] == from then [to] + s[1..]
    else
      var rest := ReplaceFirst(s[1..], from, to);
      assert forall i :: 1 <= i < |s| ==> s[..i] == [s[0]] + s[1..][..i - 1];
      [s[0]] + rest
  }

  /** Every occurrence replaced: what the badge evidently means to show. */
  function ReplaceAll(s: string, from: char, to: char): (r: string)
    ensures |r| == |s|
    ensures from != to ==> from !in r
    ensures forall i :: 0 <= i < |s| ==> r[i] == (if s[i] == from then to else s[i])
  {
    seq(|s|, i requires 0 <= i < |s| => if s[i] == from then to else s[i])
  }

  /** The badge as written: the role code with its first underscore, if any, shown as
      a space and every other character kept. */
  function RoleBadgeAsWritten(r: Role): (badge: string)
    ensures |badge| == |RoleCode(r)|
    ensures forall i :: 0 <= i < |badge| ==>
      badge[i] == RoleCode(r)[i] || (RoleCode(r)[i] == '_' && badge[i] == ' ' && '_' !in RoleCode(r)[..i])
    ensures forall i :: 0 <= i < |badge| && RoleCode(r)[i] == '_' && '_' !in RoleCode(r)[..i] ==> badge[i] == ' '
  {
    ReplaceFirst(RoleCode(r), '_', ' ')
  }

  /** The badge the login screen and the console title evidently intend: the role code
      with every underscore turned into a space and every other character kept. */
  function RoleBadge(r: Role): (badge: string)
    ensures '_' !in badge && |badge| == |RoleCode(r)|
    ensures forall i :: 0 <= i < |badge| ==>
      badge[i] == (if RoleCode(r)[i] == '_' then ' ' else RoleCode(r)[i])
  {
    ReplaceAll(RoleCode(r), '_', ' ')
  }

  /** An occurrence after the first one survives `ReplaceFirst`. */
  lemma ReplaceFirstKeepsLaterOccurrence(s: string, from: char, to: char, k: nat, j: nat)
    requires k < j < |s| && s[k] == from && s[j] == from
    ensures ReplaceFirst(s, from, to)[j] == from
  {
    assert s[..j][k] == from;
  }

  /** With a single occurrence, replacing the first one replaces them all. */
  lemma ReplaceFirstIsReplaceAllOnSingleOccurrence(s: string, from: char, to: char)
    requires forall i, j :: 0 <= i < j < |s| && s[i] == from ==> s[j] != from
    ensures ReplaceFirst(s, from, to) == ReplaceAll(s, from, to)
  {
  }

  /** The two role codes with two underscores keep their second one on the badge as
      written, unlike the badge they are meant to show. */
  lemma RoleBadgeKeepsSecondUnderscore(r: Role)
    requires r == ZoneDeSante || r == AireDeSante
    ensures '_' in RoleBadgeAsWritten(r)
    ensures '_' !in RoleBadge(r)
  {
    var code := RoleCode(r);
    assert code[4] == '_' && code[7] == '_';
    ReplaceFirstKeepsLaterOccurrence(code, '_', ' ', 4, 7);
    assert RoleBadgeAsWritten(r)[7] == '_';
  }
}
