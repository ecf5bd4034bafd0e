/**
 * The sign-up form's pure checks and the avatar switch of the page script: the password
 * strength meter (JS/script.js:333-366), the username availability check (JS/script.js:370-398)
 * and `changeAvatar` (JS/script.js:483-501), each apart from the DOM it writes to.
 */
module Validators {
  import opened Text
  import opened Accounts

  // ---------------------------------------------------------------- password strength

  predicate IsAsciiLower(c: char) { 'a' <= c <= 'z' }
  predicate IsAsciiUpper(c: char) { 'A' <= c <= 'Z' }

  /** `/[a-z]/.test(p)` */
  predicate HasLower(p: string) { exists i :: 0 <= i < |p| && IsAsciiLower(p[i]) }
  /** `/[A-Z]/.test(p)` */
  predicate HasUpper(p: string) { exists i :: 0 <= i < |p| && IsAsciiUpper(p[i]) }
  /** `/[0-9]/.test(p)` */
  predicate HasDigit(p: string) { exists i :: 0 <= i < |p| && IsDigit(p[i]) }
  /** `/[^A-Za-z0-9]/.test(p)` */
  predicate HasOther(p: string) {
    exists i :: 0 <= i < |p| && !IsAsciiLower(p[i]) && !IsAsciiUpper(p[i]) && !IsDigit(p[i])
  }

  /** One point for a criterion met. */
  function Point(met: bool): nat { if met then 1 else 0 }

  /** The meter's score: one point for each criterion, in the order the meter tests them. */
  function Score(p: string): (n: nat)
    ensures n <= 6
  {
    Point(|p| >= 8) + Point(|p| >= 12) + Point(HasLower(p)) + Point(HasUpper(p)) + Point(HasDigit(p)) + Point(HasOther(p))
  }

  /** The five states of the meter, with the text it shows for each. */
  datatype Strength = Prompt | Weak | Fair | Good | Strong {
    function Label(): string {
      match this
      case Prompt => "Digite uma senha"
      case Weak => "Senha fraca"
      case Fair => "Senha razoável"
      case Good => "Senha boa"
      case Strong => "Senha forte"
    }
    /** The class name set on the strength bar. */
    function BarClass(): string {
      match this
      case Prompt => "strength-fill"
      case Weak => "strength-fill weak"
      case Fair => "strength-fill fair"
      case Good => "strength-fill good"
      case Strong => "strength-fill strong"
    }
  }

  /** The tier a score falls into; the empty password only prompts. */
  function Tier(p: string): Strength {
    if |p| == 0 then Prompt
    else if Score(p) <= 2 then Weak
    else if Score(p) <= 3 then Fair
    else if Score(p) <= 4 then Good
    else Strong
  }

  /** Order of tiers, weakest first. */
  function Rank(s: Strength): nat {
    match s
    case Prompt => 0
    case Weak => 1
    case Fair => 2
    case Good => 3
    case Strong => 4
  }

  /** `checkPasswordStrength` without the DOM: the score it counts and the tier it shows. */
  method CheckPasswordStrength(password: string) returns (score: nat, strength: Strength)
    ensures score == Score(password) && score <= 6
    ensures strength == Tier(password)
    ensures password == [] <==> strength == Prompt
  {
    score := 0;
    if |password| >= 8 { score := score + 1; }
    if |password| >= 12 { score := score + 1; }
    if HasLower(password) { score := score + 1; }
    if HasUpper(password) { score := score + 1; }
    if HasDigit(password) { score := score + 1; }
    if HasOther(password) { score := score + 1; }
    if |password| == 0 {
      return score, Prompt;
    }
    if score <= 2 {
      strength := Weak;
    } else if score <= 3 {
      strength := Fair;
    } else if score <= 4 {
      strength := Good;
    } else {
      strength := Strong;
    }
  }

  /** Every character falls into one of the four classes, so any non-empty password scores. */
  lemma NonEmptyScores(p: string)
    requires |p| > 0
    ensures Score(p) >= 1
    ensures Tier(p) != Prompt
  {
    var c := p[0];
    if IsAsciiLower(c) { assert HasLower(p); }
    else if IsAsciiUpper(c) { assert HasUpper(p); }
    else if IsDigit(c) { assert HasDigit(p); }
    else { assert HasOther(p); }
  }

  /** Below eight characters both length points are missing, so the meter never says "strong". */
  lemma ShortNeverStrong(p: string)
    requires |p| < 8
    ensures Score(p) <= 4
    ensures Tier(p) != Strong
  {
  }

  /** Twelve characters with lower case, upper case and a digit is "strong". */
  lemma LongMixedIsStrong(p: string)
    requires |p| >= 12 && HasLower(p) && HasUpper(p) && HasDigit(p)
    ensures Tier(p) == Strong
  {
  }

  /** Typing more characters never lowers the score, nor the tier of a non-empty password. */
  lemma AppendNeverWeakens(p: string, q: string)
    ensures Score(p) <= Score(p + q)
    ensures p != [] ==> Rank(Tier(p)) <= Rank(Tier(p + q))
  {
    var pq := p + q;
    if HasLower(p) { var i :| 0 <= i < |p| && IsAsciiLower(p[i]); assert pq[i] == p[i]; }
    if HasUpper(p) { var i :| 0 <= i < |p| && IsAsciiUpper(p[i]); assert pq[i] == p[i]; }
    if HasDigit(p) { var i :| 0 <= i < |p| && IsDigit(p[i]); assert pq[i] == p[i]; }
    if HasOther(p) {
      var i :| 0 <= i < |p| && !IsAsciiLower(p[i]) && !IsAsciiUpper(p[i]) && !IsDigit(p[i]);
      assert pq[i] == p[i];
    }
  }

  // ---------------------------------------------------------------- username availability

  /** A character `/^[a-zA-Z0-9_]+$/` admits. */
  predicate IsUsernameChar(c: char) { IsAsciiLower(c) || IsAsciiUpper(c) || IsDigit(c) || c == '_' }

  /** The outcomes of `checkUsernameAvailability`, each with the feedback it shows. */
  datatype UsernameCheck = TooShort | InvalidCharacters | Taken | Available {
    function Message(): string {
      match this
      case TooShort => "Nome de usuário deve ter pelo menos 3 caracteres"
      case InvalidCharacters => "Apenas letras, números e underscore são permitidos"
      case Taken => "Este nome de usuário já está em uso"
      case Available => "Nome de usuário disponível"
    }
    /** The value the check returns. */
    predicate Accepted() { this == Available }
  }

  /** `users.some(user => user.username.toLowerCase() === username.toLowerCase())` */
  function UsernameTaken(users: seq<User>, username: string): (b: bool)
    ensures b <==> exists i :: 0 <= i < |users| && Lower(users[i].profile.username) == Lower(username)
  {
    if users == [] then false
    else Lower(users[0].profile.username) == Lower(username) || UsernameTaken(users[1..], username)
  }

  /** `checkUsernameAvailability` without the DOM: length, then characters, then the users list. */
  function CheckUsernameAvailability(username: string, users: seq<User>): (r: UsernameCheck)
    ensures r == TooShort <==> |username| < 3
    ensures r == InvalidCharacters <==> |username| >= 3 && exists i :: 0 <= i < |username| && !IsUsernameChar(username[i])
    ensures r == Taken <==>
      |username| >= 3 && (forall i :: 0 <= i < |username| ==> IsUsernameChar(username[i])) && UsernameTaken(users, username)
    ensures r.Accepted() <==>
      && |username| >= 3
      && (forall i :: 0 <= i < |username| ==> IsUsernameChar(username[i]))
      && forall i :: 0 <= i < |users| ==> Lower(users[i].profile.username) != Lower(username)
  {
    if |username| < 3 then TooShort
    else if exists i :: 0 <= i < |username| && !IsUsernameChar(username[i]) then InvalidCharacters
    else if UsernameTaken(users, username) then Taken
    else Available
  }

  /**
   * The availability check and registration agree on usernames: a username shown as available
   * is refused at registration only for an email already in use.
   */
  lemma AvailableUsernameRegisters(users: seq<User>, data: RegisterData)
    requires CheckUsernameAvailability(data.username, users).Accepted()
    ensures AnyClash(users, data) <==> exists i :: 0 <= i < |users| && Lower(users[i].profile.email) == Lower(data.email)
  {
    if AnyClash(users, data) {
      var i :| 0 <= i < |users| && Clashes(users[i], data);
      assert Lower(users[i].profile.username) != Lower(data.username);
    }
    if exists i :: 0 <= i < |users| && Lower(users[i].profile.email) == Lower(data.email) {
      var i :| 0 <= i < |users| && Lower(users[i].profile.email) == Lower(data.email);
      assert Clashes(users[i], data);
    }
  }

  /** A well-formed username that some listed user has, up to case, is reported as taken. */
  lemma ListedUsernameTaken(username: string, users: seq<User>, k: nat)
    requires |username| >= 3 && forall i :: 0 <= i < |username| ==> IsUsernameChar(username[i])
    requires k < |users| && Lower(users[k].profile.username) == Lower(username)
    ensures CheckUsernameAvailability(username, users) == Taken
  {
  }

  lemma JoaoTaken()
    ensures CheckUsernameAvailability("JOAO_GAMER", DEMO_USERS) == Taken
  {
    var name := "JOAO_GAMER";
    assert forall i :: 0 <= i < |name| ==> IsUsernameChar(name[i]);
    assert Lower(name) == "joao_gamer";
    assert Lower(DEMO_USERS[0].profile.username) == "joao_gamer";
    ListedUsernameTaken(name, DEMO_USERS, 0);
  }

  lemma MariaTaken()
    ensures CheckUsernameAvailability("Maria_Player", DEMO_USERS) == Taken
  {
    var name := "Maria_Player";
    assert forall i :: 0 <= i < |name| ==> IsUsernameChar(name[i]);
    assert Lower(name) == "maria_player";
    assert Lower(DEMO_USERS[1].profile.username) == "maria_player";
    ListedUsernameTaken(name, DEMO_USERS, 1);
  }

  /** A hyphen is refused before the users list is consulted. */
  lemma HyphenRefused(users: seq<User>)
    ensures CheckUsernameAvailability("joao-gamer", users) == InvalidCharacters
  {
    assert !IsUsernameChar("joao-gamer"[4]);
  }

  // ---------------------------------------------------------------- avatar

  /** The text every avatar shares: a circle of one colour with one white letter on it. */
  const AVATAR_HEAD: string := "data:image/svg+xml,%3Csvg xmlns='http://www.w3.org/2000/svg' viewBox='0 0 100 100'%3E%3Ccircle cx='50' cy='50' r='50' fill='%23"
  const AVATAR_MID: string := "'/%3E%3Ctext x='50' y='60' font-family='Arial' font-size='40' fill='white' text-anchor='middle'%3E"
  const AVATAR_TAIL: string := "%3C/text%3E%3C/svg%3E"

  /** The data URI of the avatar with the given six-digit fill colour and letter. */
  function Avatar(fill: string, letter: char): (uri: string)
    ensures |uri| == |AVATAR_HEAD| + |fill| + |AVATAR_MID| + 1 + |AVATAR_TAIL|
    ensures |fill| == 6 ==> uri[|AVATAR_HEAD| + 6 + |AVATAR_MID|] == letter
  {
    AVATAR_HEAD + fill + AVATAR_MID + [letter] + AVATAR_TAIL
  }

  /** The three avatars `changeAvatar` cycles through: orange G, cyan P and amber X. */
  const AVATARS: seq<string> := [Avatar("ff6b35", 'G'), Avatar("00d4ff", 'P'), Avatar("ffa726", 'X')]

  /** `Array.prototype.indexOf`: the first position holding `x`, or -1. */
  function IndexOf(xs: seq<string>, x: string): (k: int)
    ensures -1 <= k < |xs|
    ensures k >= 0 ==> xs[k] == x && forall j :: 0 <= j < k ==> xs[j] != x
    ensures k == -1 <==> x !in xs
  {
    if xs == [] then -1
    else if xs[0] == x then 0
    else
      var k := IndexOf(xs[1..], x);
      if k < 0 then -1 else k + 1
  }

  /** The `src` `changeAvatar` gives the avatar image, from its current `src`. */
  function NextAvatar(src: string): (r: string)
    ensures r in AVATARS
  {
    AVATARS[(IndexOf(AVATARS, src) + 1) % |AVATARS|]
  }

  /** The avatars differ in their letters. */
  lemma AvatarsDistinct()
    ensures AVATARS[0] != AVATARS[1] && AVATARS[1] != AVATARS[2] && AVATARS[0] != AVATARS[2]
  {
    var p := |AVATAR_HEAD| + 6 + |AVATAR_MID|;
    assert AVATARS[0][p] == 'G' && AVATARS[1][p] == 'P' && AVATARS[2][p] == 'X';
  }

  /** The position `indexOf` finds for an avatar is its own. */
  lemma IndexOfAvatar(src: string, i: nat)
    requires i < |AVATARS| && src == AVATARS[i]
    ensures IndexOf(AVATARS, src) == i
  {
    var k := IndexOf(AVATARS, src);
    assert src in AVATARS;
    assert AVATARS[k] == AVATARS[i];
    AvatarsDistinct();
  }

  /** Each avatar is followed by the next one, the last by the first. */
  lemma NextAvatarAdvances(src: string, i: nat)
    requires i < |AVATARS| && src == AVATARS[i]
    ensures NextAvatar(src) == AVATARS[if i == 2 then 0 else i + 1]
  {
    IndexOfAvatar(src, i);
    assert |AVATARS| == 3;
    assert (i + 1) % 3 == if i == 2 then 0 else i + 1;
  }

  /** An image showing none of the three (the page's first avatar) switches to the first. */
  lemma UnknownAvatarGoesToFirst(src: string)
    requires src !in AVATARS
    ensures NextAvatar(src) == AVATARS[0]
  {
  }

  /** Three clicks bring back the avatar shown before the first of them. */
  lemma ThreeClicksCycle(src: string)
    requires src in AVATARS
    ensures NextAvatar(NextAvatar(NextAvatar(src))) == src
  {
    var i := IndexOf(AVATARS, src);
    var j := if i == 2 then 0 else i + 1;
    var k := if j == 2 then 0 else j + 1;
    NextAvatarAdvances(src, i);
    var x := NextAvatar(src);
    NextAvatarAdvances(x, j);
    var y := NextAvatar(x);
    NextAvatarAdvances(y, k);
  }
}
