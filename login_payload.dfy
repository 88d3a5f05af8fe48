/**
 * The request body that `RestAuthenticationModule.login` posts: a hand-built,
 * JSON-like string with single-quoted keys and the credentials inserted
 * verbatim, without quoting or escaping.
 */
module LoginPayload {
  import opened Wrappers

  const Open: string := "{"
  const UsernameKey: string := "'username':"
  const PasswordKey: string := ",'password':"
  const Close: string := "}"

  /** `buildLoginData`: the five appends to one StringBuilder. */
  function BuildLoginData(username: string, password: string): (data: string)
    ensures |data| == |username| + |password| + 25
    ensures data[..12] == Open + UsernameKey
    ensures data[12..12 + |username|] == username
    ensures data[12 + |username|..24 + |username|] == PasswordKey
    ensures data[24 + |username|..|data| - 1] == password
    ensures data[|data| - 1] == '}'
  {
    var data := Open + UsernameKey + username + PasswordKey + password + Close;
    assert data == (Open + UsernameKey) + username + PasswordKey + password + Close;
    data
  }

  /** `pat` occurs in `s` starting at index `i`. */
  predicate OccursAt(s: string, pat: string, i: nat)
  {
    i + |pat| <= |s| && s[i..i + |pat|] == pat
  }

  /** The first index at which `pat` occurs in `s`, if any. */
  function IndexOf(s: string, pat: string): (r: Option<nat>)
    ensures r.Some? ==> OccursAt(s, pat, r.value)
    ensures r.Some? ==> forall j: nat :: j < r.value ==> !OccursAt(s, pat, j)
    ensures r.None? ==> forall j: nat :: !OccursAt(s, pat, j)
    decreases |s|
  {
    if |s| < |pat| then None
    else if s[..|pat|] == pat then Some(0)
    else
      var rest := IndexOf(s[1..], pat);
      assert !OccursAt(s, pat, 0);
      assert forall j: nat :: 1 <= j ==> OccursAt(s, pat, j) == OccursAt(s[1..], pat, j - 1);
      match rest
      case None => None
      case Some(i) => Some(i + 1)
  }

  /**
   * Reads a login body back: the text between the username key and the
   * first password key is the username, the rest up to the closing brace
   * is the password. The source has no such parser; it is the inverse that
   * says what information the body carries.
   */
  function ParseLoginData(data: string): (credentials: Option<(string, string)>)
  {
    if |data| < 13 || data[..12] != Open + UsernameKey || data[|data| - 1] != '}' then None
    else
      var fields := data[12..|data| - 1];
      match IndexOf(fields, PasswordKey)
      case None => None
      case Some(i) => Some((fields[..i], fields[i + |PasswordKey|..]))
  }

  /** A username without a comma cannot contain the password key, so the first one follows it. */
  lemma {:induction false} FirstPasswordKeyAfterUsername(username: string, rest: string)
    requires ',' !in username
    ensures IndexOf(username + PasswordKey + rest, PasswordKey) == Some(|username|)
  {
    var s := username + PasswordKey + rest;
    if username == [] {
      assert s[..|PasswordKey|] == PasswordKey;
    } else {
      assert s[0] == username[0] != ',' == PasswordKey[0];
      assert s[..|PasswordKey|] != PasswordKey;
      assert s[1..] == username[1..] + PasswordKey + rest;
      FirstPasswordKeyAfterUsername(username[1..], rest);
    }
  }

  /** The body carries both credentials whenever the username has no comma. */
  lemma ParseBuildRoundTrip(username: string, password: string)
    requires ',' !in username
    ensures ParseLoginData(BuildLoginData(username, password)) == Some((username, password))
  {
    var data := BuildLoginData(username, password);
    var fields := data[12..|data| - 1];
    assert fields == username + PasswordKey + password;
    FirstPasswordKeyAfterUsername(username, password);
    assert fields[..|username|] == username;
    assert fields[|username| + |PasswordKey|..] == password;
  }

  /**
   * Without escaping the body is ambiguous: a username that embeds the
   * password key produces the same body as a shorter username with a longer
   * password, so distinct credentials reach the server identically.
   */
  lemma LoginDataNotInjective(username: string, middle: string, password: string)
    ensures (username + PasswordKey + middle, password) != (username, middle + PasswordKey + password)
    ensures BuildLoginData(username + PasswordKey + middle, password)
         == BuildLoginData(username, middle + PasswordKey + password)
  {
    // Both bodies are the same five pieces, re-associated.
  }
}
