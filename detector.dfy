/**
 * The chat grammar of `onChatJson` (index.js:79-100) and the name-collision
 * test of the second `kicked` listener (index.js:181-182). Each regular
 * expression of the source is kept as its table of alternatives, matched
 * against the lower-cased text.
 */
module Detector {
  import opened Text

  /** `/registered|registration|successfully registered|you are registered/` (index.js:85). */
  const RegisterSuccess: seq<string> :=
    ["registered", "registration", "successfully registered", "you are registered"]

  /** `/already registered|registered before|passwords do not match|error|failed/` (index.js:88). */
  const RegisterFailure: seq<string> :=
    ["already registered", "registered before", "passwords do not match", "error", "failed"]

  /** `/logged in|successfully logged in|welcome|you are now logged in|login successful/` (index.js:94). */
  const LoginSuccess: seq<string> :=
    ["logged in", "successfully logged in", "welcome", "you are now logged in", "login successful"]

  /** An alternation of plain words matches when one of the words occurs. */
  function MatchesAny(text: string, words: seq<string>): (b: bool)
    ensures b <==> exists k :: 0 <= k < |words| && Contains(text, words[k])
  {
    if words == [] then false
    else
      assert forall k :: 1 <= k < |words| ==> words[k] == words[1..][k - 1];
      Contains(text, words[0]) || MatchesAny(text, words[1..])
  }

  /** What a chat line says about a pending registration. */
  datatype RegisterReply = Confirmed | Rejected | Unrelated

  /**
   * The success test runs first; the failure test only when it fails
   * (index.js:84-91). Of the four success phrases only "registered" and
   * "registration" matter, since the other two contain "registered"; of the
   * failure phrases only the last three can decide, since the first two
   * contain "registered" as well.
   */
  function RegisterOutcome(text: string): (r: RegisterReply)
    ensures r == Confirmed <==> Contains(text, "registered") || Contains(text, "registration")
    ensures r == Rejected <==>
      !Contains(text, "registered") && !Contains(text, "registration")
      && (Contains(text, "passwords do not match") || Contains(text, "error") || Contains(text, "failed"))
  {
    Any4(text, "registered", "registration", "successfully registered", "you are registered");
    Any5(text, "already registered", "registered before", "passwords do not match", "error", "failed");
    SuccessfullyRegisteredHas();
    YouAreRegisteredHas();
    AlreadyRegisteredHas();
    RegisteredBeforeHas();
    Covered(text, "successfully registered", "registered");
    Covered(text, "you are registered", "registered");
    Covered(text, "already registered", "registered");
    Covered(text, "registered before", "registered");
    if MatchesAny(text, RegisterSuccess) then Confirmed
    else if MatchesAny(text, RegisterFailure) then Rejected
    else Unrelated
  }

  /**
   * The login test of index.js:94: of its five phrases, "successfully
   * logged in" and "you are now logged in" contain "logged in".
   */
  function IsLoginSuccess(text: string): (b: bool)
    ensures b <==> Contains(text, "logged in") || Contains(text, "welcome") || Contains(text, "login successful")
  {
    Any5(text, "logged in", "successfully logged in", "welcome", "you are now logged in", "login successful");
    SuccessfullyLoggedInHas();
    YouAreNowLoggedInHas();
    Covered(text, "successfully logged in", "logged in");
    Covered(text, "you are now logged in", "logged in");
    MatchesAny(text, LoginSuccess)
  }

  /** `/name.*in use|username .* taken|duplicate name/` (index.js:182). */
  function IsNameCollision(text: string): (b: bool)
    ensures b <==> Spans(text, "name", "in use") || Spans(text, "username ", " taken")
                   || exists i :: OccursAt(text, "duplicate name", i)
    ensures text == [] ==> !b
  {
    FollowedOnLine(text, "name", "in use")
      || FollowedOnLine(text, "username ", " taken")
      || Contains(text, "duplicate name")
  }

  /** A word occurs in any text that ends with it. */
  lemma Suffix(x: string, w: string)
    ensures Contains(x + w, w)
  {
    assert (x + w)[|x|..] == w;
    assert OccursAt(x + w, w, |x|);
  }

  /** A word occurs in any text that starts with it. */
  lemma Prefix(w: string, y: string)
    ensures Contains(w + y, w)
  {
    assert (w + y)[..|w|] == w;
    assert OccursAt(w + y, w, 0);
  }

  /** A four-word alternation is the disjunction of its words. */
  lemma Any4(t: string, a: string, b: string, c: string, d: string)
    ensures MatchesAny(t, [a, b, c, d])
        <==> Contains(t, a) || Contains(t, b) || Contains(t, c) || Contains(t, d)
  {
    var ws := [a, b, c, d];
    assert ws[0] == a && ws[1] == b && ws[2] == c && ws[3] == d;
  }

  /** A five-word alternation is the disjunction of its words. */
  lemma Any5(t: string, a: string, b: string, c: string, d: string, e: string)
    ensures MatchesAny(t, [a, b, c, d, e])
        <==> Contains(t, a) || Contains(t, b) || Contains(t, c) || Contains(t, d) || Contains(t, e)
  {
    var ws := [a, b, c, d, e];
    assert ws[0] == a && ws[1] == b && ws[2] == c && ws[3] == d && ws[4] == e;
  }

  /** An alternative that contains another one adds nothing to the alternation. */
  lemma Covered(t: string, longer: string, shorter: string)
    requires Contains(longer, shorter)
    ensures Contains(t, longer) ==> Contains(t, shorter)
  {
    if Contains(t, longer) {
      ContainsTransitive(t, longer, shorter);
    }
  }

  /** A gap on one line between `a` and `b` makes the text span them. */
  lemma SpanWitness(a: string, gap: string, b: string, y: string)
    requires OnOneLine(gap)
    ensures Spans(a + gap + b + y, a, b)
  {
    var s := a + gap + b + y;
    assert s[..|a|] == a;
    assert s[|a| + |gap|..|a| + |gap| + |b|] == b;
    assert s[|a|..|a| + |gap|] == gap;
    assert SpanAt(s, a, b, 0, |a| + |gap|);
  }

  lemma SuccessfullyRegisteredHas()
    ensures Contains("successfully registered", "registered")
  {
    Suffix("successfully ", "registered");
    assert "successfully " + "registered" == "successfully registered";
  }

  lemma YouAreRegisteredHas()
    ensures Contains("you are registered", "registered")
  {
    Suffix("you are ", "registered");
    assert "you are " + "registered" == "you are registered";
  }

  lemma AlreadyRegisteredHas()
    ensures Contains("already registered", "registered")
  {
    Suffix("already ", "registered");
    assert "already " + "registered" == "already registered";
  }

  lemma RegisteredBeforeHas()
    ensures Contains("registered before", "registered")
  {
    Prefix("registered", " before");
    assert "registered" + " before" == "registered before";
  }

  lemma SuccessfullyLoggedInHas()
    ensures Contains("successfully logged in", "logged in")
  {
    Suffix("successfully ", "logged in");
    assert "successfully " + "logged in" == "successfully logged in";
  }

  lemma YouAreNowLoggedInHas()
    ensures Contains("you are now logged in", "logged in")
  {
    Suffix("you are now ", "logged in");
    assert "you are now " + "logged in" == "you are now logged in";
  }

  /**
   * "already registered" and "registered before" are listed as failures, but
   * the success test sees "registered" in them first: they confirm.
   */
  lemma AlreadyRegisteredConfirms(text: string)
    requires Contains(text, "already registered") || Contains(text, "registered before")
    ensures RegisterOutcome(text) == Confirmed
  {
    AlreadyRegisteredHas();
    RegisteredBeforeHas();
    Covered(text, "already registered", "registered");
    Covered(text, "registered before", "registered");
  }

  /** "You are registered!" confirms a pending registration. */
  lemma YouAreRegisteredConfirms()
    ensures RegisterOutcome(ToLower("You are registered!")) == Confirmed
  {
    var t := ToLower("You are registered!");
    assert t == "you are registered" + "!";
    YouAreRegisteredHas();
    Prefix("you are registered", "!");
    ContainsTransitive(t, "you are registered", "registered");
  }

  /** "Username already taken" is a name collision. */
  lemma UsernameAlreadyTakenCollides()
    ensures IsNameCollision(ToLower("Username already taken"))
  {
    var t := ToLower("Username already taken");
    assert t == "username " + "already" + " taken" + "";
    assert OnOneLine("already");
    SpanWitness("username ", "already", " taken", "");
  }

  /**
   * "Username taken" is not a name collision: `username .* taken` needs a
   * space on each side of the gap, and the line has only one.
   */
  lemma UsernameTakenDoesNotCollide()
    ensures !IsNameCollision(ToLower("Username taken"))
  {
    var t := ToLower("Username taken");
    assert t == "username taken";
    assert 'i' !in t && 'd' !in t;
    Absent(t, "in use", 0);
    Absent(t, "duplicate name", 0);
    NoSpanWithoutEnd(t, "name", "in use");
    TooShortToSpan(t, "username ", " taken");
  }

  /** A word with a character the text lacks does not occur in it. */
  lemma Absent(t: string, w: string, k: nat)
    requires k < |w| && w[k] !in t
    ensures !Contains(t, w)
  {
    forall i | 0 <= i && i + |w| <= |t|
      ensures !OccursAt(t, w, i)
    {
      assert t[i + k] in t;
      assert t[i..i + |w|][k] == t[i + k];
    }
  }

  /** Without its second word a span cannot occur. */
  lemma NoSpanWithoutEnd(s: string, a: string, b: string)
    requires !Contains(s, b)
    ensures !Spans(s, a, b)
  {
  }

  /** A text shorter than both words together spans neither. */
  lemma TooShortToSpan(s: string, a: string, b: string)
    requires |s| < |a| + |b|
    ensures !Spans(s, a, b)
  {
  }
}
