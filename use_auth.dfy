/**
 * The authentication hook (src/hooks/useAuth.ts): the demo-mode display
 * name derived from an email address, the mock tokens and their
 * recognition on restore, the rule that decides whether a backend is
 * configured, and the session state the hook keeps (the signed-in user,
 * the loading flag and the two browser storage entries).
 *
 * The backend's answers, the clock and the random part of a mock user's
 * identifier are parameters; a backend call that throws is `None`.
 */
module UseAuth {
  import opened Common

  // ---------------------------------------------------------------------
  // The display name: split at '@', replace '.' and '_', capitalise words
  // ---------------------------------------------------------------------

  /** `email.split('@')[0]`: the text before the first '@', or all of it. */
  function LocalPart(email: string): (r: string)
    ensures r <= email && '@' !in r
    ensures '@' in email ==> |r| < |email| && email[|r|] == '@'
    ensures '@' !in email ==> r == email
  {
    if email == [] || email[0] == '@' then []
    else [email[0]] + LocalPart(email[1..])
  }

  /** `.replace(/[._]/g, ' ')`: every '.' and '_' becomes a space. */
  function ReplaceSeparators(s: string): (r: string)
    ensures |r| == |s|
    ensures '.' !in r && '_' !in r
    ensures forall i :: 0 <= i < |s| && s[i] != '.' && s[i] != '_' ==> r[i] == s[i]
    ensures forall i :: 0 <= i < |s| && (s[i] == '.' || s[i] == '_') ==> r[i] == ' '
  {
    seq(|s|, i requires 0 <= i < |s| => if s[i] == '.' || s[i] == '_' then ' ' else s[i])
  }

  /** `.split(' ')`: the pieces between spaces, empty ones included; never an empty list. */
  function Split(s: string): (ws: seq<string>)
    ensures |ws| >= 1
    ensures forall w :: w in ws ==> ' ' !in w
  {
    if s == [] then [[]]
    else
      var rest := Split(s[1..]);
      if s[0] == ' ' then [[]] + rest
      else [[s[0]] + rest[0]] + rest[1..]
  }

  /** `.join(' ')` */
  function Join(ws: seq<string>): string
    requires |ws| >= 1
  {
    if |ws| == 1 then ws[0] else ws[0] + " " + Join(ws[1..])
  }

  /** Joining the pieces of a split gives the text back. */
  lemma {:induction false} JoinSplit(s: string)
    ensures Join(Split(s)) == s
  {
    if s != [] {
      var t := s[1..];
      JoinSplit(t);
      assert s == [s[0]] + t;
      if s[0] == ' ' {
        JoinAfterEmpty(Split(t), t);
      } else {
        JoinGlued(s[0], Split(t), t);
      }
    }
  }

  /** A leading empty piece joins as a leading space. */
  lemma JoinAfterEmpty(ws: seq<string>, t: string)
    requires |ws| >= 1 && Join(ws) == t
    ensures Join([[]] + ws) == " " + t
  {
    assert ([[]] + ws)[1..] == ws;
  }

  /** A character glued to the front of the first piece comes first in the join. */
  lemma JoinGlued(c: char, ws: seq<string>, t: string)
    requires |ws| >= 1 && Join(ws) == t
    ensures Join([[c] + ws[0]] + ws[1..]) == [c] + t
  {
    if |ws| > 1 {
      var tail := Join(ws[1..]);
      assert ([[c] + ws[0]] + ws[1..])[1..] == ws[1..];
      assert ([c] + ws[0]) + " " + tail == [c] + (ws[0] + " " + tail);
    }
  }

  /** `word.charAt(0).toUpperCase() + word.slice(1)` */
  function CapitalizeWord(w: string): (r: string)
    ensures |r| == |w|
  {
    if w == [] then [] else [UpperChar(w[0])] + w[1..]
  }

  function CapitalizeAll(ws: seq<string>): (r: seq<string>)
    ensures |r| == |ws| && forall i :: 0 <= i < |ws| ==> r[i] == CapitalizeWord(ws[i])
  {
    seq(|ws|, i requires 0 <= i < |ws| => CapitalizeWord(ws[i]))
  }

  /**
   * The reference reading of the capitalisation: a character is
   * upper-cased exactly when it starts the text (with `atStart`) or
   * follows a space; every other character is kept.
   */
  function CapFrom(s: string, atStart: bool): (r: string)
    ensures |r| == |s|
  {
    if s == [] then []
    else [if atStart then UpperChar(s[0]) else s[0]] + CapFrom(s[1..], s[0] == ' ')
  }

  /** The reference capitalisation, character by character. */
  lemma {:induction false} CapFromAt(s: string, atStart: bool)
    ensures forall i :: 0 <= i < |s| ==>
      CapFrom(s, atStart)[i] == if (i == 0 && atStart) || (i > 0 && s[i - 1] == ' ') then UpperChar(s[i]) else s[i]
  {
    if s != [] {
      var r := CapFrom(s, atStart);
      var rest := CapFrom(s[1..], s[0] == ' ');
      CapFromAt(s[1..], s[0] == ' ');
      forall i | 0 < i < |s|
        ensures r[i] == if s[i - 1] == ' ' then UpperChar(s[i]) else s[i]
      {
        assert r[i] == rest[i - 1] && s[1..][i - 1] == s[i];
        if i > 1 {
          assert s[1..][i - 2] == s[i - 1];
        }
      }
    }
  }

  lemma {:induction false} CapFromAppend(a: string, b: string, atStart: bool)
    ensures CapFrom(a + b, atStart) == CapFrom(a, atStart) + CapFrom(b, if a == [] then atStart else a[|a| - 1] == ' ')
  {
    if a == [] {
      assert a + b == b;
    } else {
      var head := [if atStart then UpperChar(a[0]) else a[0]];
      var startB := a[|a| - 1] == ' ';
      var x := CapFrom(a[1..], a[0] == ' ');
      var y := CapFrom(b, startB);
      assert CapFrom(a + b, atStart) == head + CapFrom(a[1..] + b, a[0] == ' ') by {
        assert (a + b)[0] == a[0] && (a + b)[1..] == a[1..] + b;
      }
      assert CapFrom(a[1..] + b, a[0] == ' ') == x + y by {
        var tail := a[1..];
        CapFromAppend(tail, b, a[0] == ' ');
        assert (if tail == [] then a[0] == ' ' else tail[|tail| - 1] == ' ') == startB;
      }
      assert CapFrom(a, atStart) == head + x;
      assert head + (x + y) == (head + x) + y;
    }
  }

  /** A word without spaces is capitalised as the reference capitalisation would. */
  lemma CapitalizeWordIsCapFrom(w: string)
    requires ' ' !in w
    ensures CapitalizeWord(w) == CapFrom(w, true)
  {
    CapFromAt(w, true);
    forall i | 0 <= i < |w|
      ensures CapitalizeWord(w)[i] == CapFrom(w, true)[i]
    {
      if i > 0 {
        assert w[i - 1] in w;
      }
    }
  }

  /** Capitalising a word, a space and the rest is capitalising each part, the rest from its start. */
  lemma CapFromAroundSpace(w: string, rest: string)
    ensures CapFrom(w + " " + rest, true) == CapFrom(w, true) + " " + CapFrom(rest, true)
  {
    var st := if w == [] then true else w[|w| - 1] == ' ';
    var x := CapFrom(w, true);
    var y := CapFrom(rest, true);
    assert CapFrom(w + (" " + rest), true) == x + CapFrom(" " + rest, st) by {
      CapFromAppend(w, " " + rest, true);
    }
    assert CapFrom(" " + rest, st) == " " + y by {
      CapFromAppend(" ", rest, st);
    }
    assert w + " " + rest == w + (" " + rest);
    assert x + (" " + y) == x + " " + y;
  }

  /** Capitalising the words one by one and joining them is the reference capitalisation of the joined text. */
  lemma {:induction false} JoinCapitalized(ws: seq<string>)
    requires |ws| >= 1
    requires forall w :: w in ws ==> ' ' !in w
    ensures Join(CapitalizeAll(ws)) == CapFrom(Join(ws), true)
  {
    CapitalizeWordIsCapFrom(ws[0]);
    if |ws| > 1 {
      assert CapitalizeAll(ws)[1..] == CapitalizeAll(ws[1..]);
      JoinCapitalized(ws[1..]);
      CapFromAroundSpace(ws[0], Join(ws[1..]));
    }
  }

  /**
   * The display name of a demo user: the local part of the address with
   * '.' and '_' turned into spaces, and each character that starts a word
   * upper-cased. Only ASCII letters change case, so the name is exactly
   * as long as the local part and has no '@', '.' or '_'.
   */
  function DisplayName(email: string): (name: string)
    ensures var sep := ReplaceSeparators(LocalPart(email));
      && |name| == |LocalPart(email)|
      && (forall i :: 0 <= i < |name| ==>
            name[i] == if i == 0 || sep[i - 1] == ' ' then UpperChar(sep[i]) else sep[i])
    ensures '@' !in name && '.' !in name && '_' !in name
  {
    var sep := ReplaceSeparators(LocalPart(email));
    WordsCapitalized(sep);
    CapFromKeepsMarks(sep, true);
    CapFromAt(sep, true);
    Join(CapitalizeAll(Split(sep)))
  }

  /** The split, capitalise and join pipeline is the reference capitalisation. */
  lemma WordsCapitalized(s: string)
    ensures Join(CapitalizeAll(Split(s))) == CapFrom(s, true)
  {
    JoinCapitalized(Split(s));
    JoinSplit(s);
  }

  /** Upper-casing never produces '@', '.' or '_', so capitalising keeps them out. */
  lemma CapFromKeepsMarks(s: string, atStart: bool)
    requires '@' !in s && '.' !in s && '_' !in s
    ensures '@' !in CapFrom(s, atStart) && '.' !in CapFrom(s, atStart) && '_' !in CapFrom(s, atStart)
  {
    var r := CapFrom(s, atStart);
    CapFromAt(s, atStart);
    forall i | 0 <= i < |r|
      ensures r[i] != '@' && r[i] != '.' && r[i] != '_'
    {
      assert s[i] in s;
    }
  }

  // ---------------------------------------------------------------------
  // Tokens and the backend rule
  // ---------------------------------------------------------------------

  const MockTokenPrefix := "mock_token_"
  const DefaultApiUrl := "http://localhost:5000/api"

  /** `'mock_token_' + Date.now()` */
  function MockToken(now: nat): (token: string)
    ensures |token| > |MockTokenPrefix|
  {
    MockTokenPrefix + NatToString(now)
  }

  /** A restored session whose token starts with the mock prefix is a demo session. */
  predicate IsDemoToken(token: string) {
    StartsWith(token, MockTokenPrefix)
  }

  /** Every mock token the hook issues is recognised as a demo token. */
  lemma MockTokensAreDemo(now: nat)
    ensures IsDemoToken(MockToken(now))
  {
    assert MockToken(now)[..|MockTokenPrefix|] == MockTokenPrefix;
  }

  /** A backend counts as available when its address is set, non-empty, and not the local default. */
  function IsBackendAvailable(apiUrl: Option<string>): (r: bool)
    ensures r <==> apiUrl.Some? && apiUrl.value != "" && apiUrl.value != DefaultApiUrl
  {
    match apiUrl
    case None => false
    case Some(url) => url != "" && url != DefaultApiUrl
  }

  // ---------------------------------------------------------------------
  // The session state
  // ---------------------------------------------------------------------

  datatype User = User(id: string, email: string, name: string, avatarUrl: Option<string>)

  /** The stored user entry: a user written by the hook, or text that does not parse. */
  datatype StoredUser = UserJson(user: User) | Unparsable

  /** The demo user built when no backend answers. */
  function MockUser(email: string, name: string, randomId: string): (u: User)
    ensures u.email == email && u.name == name && u.id == "usr_" + randomId
  {
    User("usr_" + randomId, email, name,
         Some("https://api.dicebear.com/7.x/notionists/svg?seed=" + email + "&backgroundColor=c0aede"))
  }

  /** What `initializeAuth` leaves behind: the user, then the two storage entries. */
  datatype Restored = Restored(user: Option<User>, token: Option<string>, stored: Option<StoredUser>)

  /**
   * `initializeAuth`. With a non-empty token and a stored user, a demo
   * token restores the stored user; any other token asks the backend,
   * whose answer replaces the stored user, or, when the backend call
   * throws, the stored user is used. A stored user that does not parse
   * clears both entries. Without both entries nothing is restored.
   */
  function Restore(token: Option<string>, stored: Option<StoredUser>, me: Option<User>): (r: Restored)
    ensures r.user.Some? ==> token.Some? && stored.Some?
    ensures token.Some? && token.value != "" && IsDemoToken(token.value) && stored.Some? && stored.value.UserJson? ==>
      r == Restored(Some(stored.value.user), token, stored)
    ensures token.Some? && token.value != "" && !IsDemoToken(token.value) && stored.Some? && me.Some? ==>
      r == Restored(me, token, Some(UserJson(me.value)))
    ensures r.token.None? <==> token.None? || (token.value != "" && stored == Some(Unparsable)
                                               && (IsDemoToken(token.value) || me.None?))
    ensures token.Some? && token.value != "" && !IsDemoToken(token.value) && me.None? && stored.Some? && stored.value.UserJson? ==>
      r == Restored(Some(stored.value.user), token, stored)
    ensures r.token.None? && token.Some? ==> r == Restored(None, None, None)
    ensures token.None? || token.value == "" || stored.None? ==> r == Restored(None, token, stored)
  {
    if token.None? || token.value == "" || stored.None? then Restored(None, token, stored)
    else if IsDemoToken(token.value) then
      if stored.value.UserJson? then Restored(Some(stored.value.user), token, stored)
      else Restored(None, None, None)
    else if me.Some? then Restored(me, token, Some(UserJson(me.value)))
    else if stored.value.UserJson? then Restored(Some(stored.value.user), token, stored)
    else Restored(None, None, None)
  }

  /**
   * A demo sign-in survives a reload: the token and user it writes are
   * restored as they were, whatever the backend would answer.
   */
  lemma DemoSessionRestored(u: User, now: nat, me: Option<User>)
    ensures Restore(Some(MockToken(now)), Some(UserJson(u)), me)
            == Restored(Some(u), Some(MockToken(now)), Some(UserJson(u)))
  {
    MockTokensAreDemo(now);
  }

  class AuthState {
    var user: Option<User>
    var isLoading: bool
    var token: Option<string>
    var stored: Option<StoredUser>

    /** The hook starts loading, with no user, over whatever the storage holds. */
    constructor(token0: Option<string>, stored0: Option<StoredUser>)
      ensures user.None? && isLoading && token == token0 && stored == stored0
    {
      user := None;
      isLoading := true;
      token := token0;
      stored := stored0;
    }

    /** `initializeAuth`, with `me` the backend's answer to the token check. */
    method InitializeAuth(me: Option<User>)
      modifies this
      ensures Restored(user, token, stored) == Restore(old(token), old(stored), me)
      ensures !isLoading
    {
      var r := Restore(token, stored, me);
      user, token, stored := r.user, r.token, r.stored;
      isLoading := false;
    }

    /** The demo sign-in shared by every path that does without the backend. */
    method SignInDemo(email: string, name: string, randomId: string, now: nat)
      modifies this
      ensures user == Some(MockUser(email, name, randomId)) && stored == Some(UserJson(user.value))
      ensures token == Some(MockToken(now)) && !isLoading
    {
      var u := MockUser(email, name, randomId);
      token := Some(MockToken(now));
      stored := Some(UserJson(u));
      user := Some(u);
      isLoading := false;
    }

    /**
     * `login`. Without a configured backend, or when the backend call
     * throws, the user signs in as a demo user named after the email
     * address; otherwise the backend's user is kept, with its token when
     * it sends one.
     */
    method Login(email: string, apiUrl: Option<string>, reply: Option<(User, string)>, randomId: string, now: nat)
      modifies this
      ensures !isLoading && user.Some? && stored == Some(UserJson(user.value))
      ensures !IsBackendAvailable(apiUrl) || reply.None? ==>
        user == Some(MockUser(email, DisplayName(email), randomId)) && token == Some(MockToken(now))
      ensures IsBackendAvailable(apiUrl) && reply.Some? ==>
        user == Some(reply.value.0)
        && token == (if reply.value.1 != "" then Some(reply.value.1) else old(token))
    {
      isLoading := true;
      if !IsBackendAvailable(apiUrl) || reply.None? {
        SignInDemo(email, DisplayName(email), randomId, now);
        return;
      }
      var (u, t) := reply.value;
      if t != "" {
        token := Some(t);
      }
      user := Some(u);
      stored := Some(UserJson(u));
      isLoading := false;
    }

    /** `register`: as `login`, but a demo user keeps the name given. */
    method Register(name: string, email: string, apiUrl: Option<string>, reply: Option<(User, string)>,
                    randomId: string, now: nat)
      modifies this
      ensures !isLoading && user.Some? && stored == Some(UserJson(user.value))
      ensures !IsBackendAvailable(apiUrl) || reply.None? ==>
        user == Some(MockUser(email, name, randomId)) && token == Some(MockToken(now))
      ensures IsBackendAvailable(apiUrl) && reply.Some? ==>
        user == Some(reply.value.0)
        && token == (if reply.value.1 != "" then Some(reply.value.1) else old(token))
    {
      isLoading := true;
      if !IsBackendAvailable(apiUrl) || reply.None? {
        SignInDemo(email, name, randomId, now);
        return;
      }
      var (u, t) := reply.value;
      if t != "" {
        token := Some(t);
      }
      user := Some(u);
      stored := Some(UserJson(u));
      isLoading := false;
    }

    /** `logout`: both storage entries are removed and the user is cleared. */
    method Logout()
      modifies this
      ensures user.None? && token.None? && stored.None? && isLoading == old(isLoading)
    {
      token := None;
      stored := None;
      user := None;
    }
  }
}
