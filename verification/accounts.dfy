/** The signed-in user record the auth and profile code pass around, and the outcome of an API call. */
module Accounts {
  import opened Wrappers
  import opened Text

  /** The user as the API returns it (the fields the screens read; `avatar` is nullable). */
  datatype User = User(id: string, name: string, username: string, email: string, phoneNumber: string,
                       avatar: Option<string>)

  /** What a screen shows for "who am I": a name, a handle and an optional avatar URL. */
  datatype ShownUser = ShownUser(name: string, username: string, avatar: Option<string>)

  /** `user || { name, username, avatar: undefined }`: the signed-in user, else a placeholder. */
  function CurrentUser(user: Option<User>, fallbackName: string, fallbackUsername: string): (u: ShownUser)
    ensures user.Some? ==> u == ShownUser(user.value.name, user.value.username, user.value.avatar)
    ensures user.None? ==> u == ShownUser(fallbackName, fallbackUsername, None)
  {
    match user
    case Some(v) => ShownUser(v.name, v.username, v.avatar)
    case None => ShownUser(fallbackName, fallbackUsername, None)
  }

  /** The first characters of the pieces, skipping empty pieces (whose `n[0]` joins as ""). */
  function Heads(parts: seq<string>): (r: string)
    ensures |r| <= |parts|
    ensures forall i :: 0 <= i < |r| ==> exists k :: 0 <= k < |parts| && parts[k] != "" && r[i] == parts[k][0]
  {
    if parts == [] then ""
    else
      var rest := Heads(parts[1..]);
      assert forall i :: 0 <= i < |rest| ==> exists k :: 0 <= k < |parts| - 1 && parts[1..][k] != "" && rest[i] == parts[1..][k][0];
      if parts[0] == "" then rest else [parts[0][0]] + rest
  }

  /** `name.split(" ").map(n => n[0]).join("")`: the avatar fallback of the sidebar and the settings page. */
  function Initials(name: string): (r: string)
    ensures forall i :: 0 <= i < |r| ==> r[i] != ' ' && r[i] in name
  {
    var parts := Split(name, ' ');
    SplitJoinContains(name, parts);
    Heads(parts)
  }

  /** Every character of a piece occurs in the split string. */
  lemma SplitJoinContains(name: string, parts: seq<string>)
    requires parts == Split(name, ' ')
    ensures forall k, i :: 0 <= k < |parts| && 0 <= i < |parts[k]| ==> parts[k][i] in name
  {
    forall k, i | 0 <= k < |parts| && 0 <= i < |parts[k]| ensures parts[k][i] in name {
      PieceInJoin(parts, ' ', k, i);
      SplitJoin(name, ' ');
    }
  }

  lemma {:induction false} PieceInJoin(parts: seq<string>, sep: char, k: nat, i: nat)
    requires |parts| >= 1 && k < |parts| && i < |parts[k]|
    ensures parts[k][i] in Join(parts, sep)
  {
    if |parts| > 1 {
      if k == 0 {
        assert Join(parts, sep) == parts[0] + ([sep] + Join(parts[1..], sep));
        assert Join(parts, sep)[i] == parts[0][i];
      } else {
        PieceInJoin(parts[1..], sep, k - 1, i);
        assert Join(parts, sep) == (parts[0] + [sep]) + Join(parts[1..], sep);
      }
    }
  }

  /** Two words separated by one space give their two first letters. */
  lemma TwoWordInitials(first: string, last: string)
    requires first != "" && last != "" && ' ' !in first && ' ' !in last
    ensures Initials(first + " " + last) == [first[0], last[0]]
  {
    SplitAfterPiece(first, ' ', last);
    assert first + " " + last == first + [' '] + last;
    SplitWithoutSep(last, ' ');
    assert Split(first + " " + last, ' ') == [first, last];
    assert [first, last][1..] == [last];
    assert [last][1..] == [];
    assert Heads([last]) == [last[0]] + Heads([]);
    assert Heads([first, last]) == [first[0]] + Heads([last]);
  }

  /** A name without spaces is one piece: its first character, or nothing when it is empty. */
  lemma InitialsWord(w: string)
    requires ' ' !in w
    ensures Initials(w) == if w == "" then "" else [w[0]]
  {
    SplitWithoutSep(w, ' ');
    assert Heads([w]) == (if w == "" then "" else [w[0]]) + Heads([]);
  }

  /** A space-free word before a space contributes its first character (nothing if empty), then the rest follows. */
  lemma InitialsCons(w: string, t: string)
    requires ' ' !in w
    ensures Initials(w + " " + t) == (if w == "" then "" else [w[0]]) + Initials(t)
  {
    assert w + " " + t == w + [' '] + t;
    SplitAfterPiece(w, ' ', t);
    var parts := [w] + Split(t, ' ');
    assert parts[1..] == Split(t, ' ');
  }

  /** The characters that start a word: not a space, and first or right after a space. */
  function WordStarts(s: string, afterSpace: bool): (r: string)
    ensures |r| <= |s|
  {
    if s == [] then ""
    else (if afterSpace && s[0] != ' ' then [s[0]] else "") + WordStarts(s[1..], s[0] == ' ')
  }

  /** The initials are exactly the word-starting characters of the name, in order. */
  lemma InitialsAreWordStarts(name: string)
    ensures Initials(name) == WordStarts(name, true)
  {
    HeadsOfSplit(name);
  }

  lemma {:induction false} HeadsOfSplit(s: string)
    ensures Heads(Split(s, ' ')) == WordStarts(s, true)
    ensures Heads(Split(s, ' ')[1..]) == WordStarts(s, false)
  {
    if s != [] {
      HeadsOfSplit(s[1..]);
      var rest := Split(s[1..], ' ');
      if s[0] == ' ' {
        assert Split(s, ' ') == [""] + rest;
        assert ([""] + rest)[1..] == rest;
      } else {
        var first := [s[0]] + rest[0];
        assert Split(s, ' ') == [first] + rest[1..];
        assert ([first] + rest[1..])[1..] == rest[1..];
        assert first[0] == s[0];
      }
    }
  }

  /**
   * How an awaited API call ended: with its value, or with an error carrying the error's
   * own `message` and the optional `response.data.message` the server sent.
   */
  datatype ApiResult<T> = Ok(value: T) | Failed(errorMessage: string, serverMessage: Option<string>)
}
