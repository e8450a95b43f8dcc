/** src/error_classifier.cc: the class of an error from its codes and the words of its message. */
module ErrorClassifier {
  import opened Text

  datatype ErrorClass = None | Auth | Timeout | Connection | ServerError | NotFound | ClientError
                      | RedirectLoop | Trust | Unknown

  function ErrorClassName(c: ErrorClass): string {
    match c
    case None => "none"
    case Auth => "auth"
    case Timeout => "timeout"
    case Connection => "connection"
    case ServerError => "server_error"
    case NotFound => "not_found"
    case ClientError => "client_error"
    case RedirectLoop => "redirect_loop"
    case Trust => "trust"
    case Unknown => "unknown"
  }

  /** A class can be told from the length and the first letter of its name. */
  lemma NamesDiffer(c: ErrorClass, d: ErrorClass)
    ensures ErrorClassName(c) == ErrorClassName(d) <==> c == d
  {
    var a, b := ErrorClassName(c), ErrorClassName(d);
    assert c != d ==> |a| != |b| || a[0] != b[0];
  }

  predicate Contains(s: string, word: string)
    ensures Contains(s, word) ==> |s| >= |word|
  {
    |s| >= |word| && (s[..|word|] == word || (s != [] && Contains(s[1..], word)))
  }

  predicate ContainsAny(s: string, words: seq<string>) {
    words != [] && (Contains(s, words[0]) || ContainsAny(s, words[1..]))
  }

  ghost predicate NoEmptyWord(words: seq<string>) {
    forall i :: 0 <= i < |words| ==> |words[i]| > 0
  }

  /** The words that give a class away, tried in this order. */
  datatype Vocabulary = Vocabulary(auth: seq<string>, notFound: seq<string>, redirect: seq<string>,
                                   timeout: seq<string>, trust: seq<string>, connection: seq<string>,
                                   server: seq<string>)
  {
    ghost predicate Valid() {
      NoEmptyWord(auth) && NoEmptyWord(notFound) && NoEmptyWord(redirect) && NoEmptyWord(timeout)
      && NoEmptyWord(trust) && NoEmptyWord(connection) && NoEmptyWord(server)
    }
  }

  function XRootDWords(): (v: Vocabulary)
    ensures v.Valid()
  {
    Vocabulary(
      ["not authorized", "authentication", "permission denied", "eacces", "gss error"],
      ["not found", "no such file"],
      ["redirect limit", "redirect loop", "too many redirects", "redirectlimit"],
      ["timeout", "timed out"],
      ["certificate verify", "unable to get local issuer", "unknown ca", "self signed certificate",
       "certificate unknown", "sslv3 alert certificate", "x509_v_err"],
      ["tls", "error_ssl", "ssl", "handshake", "connection", "connect", "socket",
       "resource temporarily unavailable", "network is unreachable"],
      ["server", "srverr"])
  }

  function ClassifyBy(v: Vocabulary, statusCode: int, errCode: int, msg: string): ErrorClass {
    if errCode == 3010 || ContainsAny(msg, v.auth) then Auth
    else if errCode == 3001 || ContainsAny(msg, v.notFound) then NotFound
    else if ContainsAny(msg, v.redirect) then RedirectLoop
    else if ContainsAny(msg, v.timeout) || errCode == 110 then Timeout
    else if ContainsAny(msg, v.trust) then Trust
    else if ContainsAny(msg, v.connection) || errCode == 111 || errCode == 104 || errCode == 11 then Connection
    else if 3000 <= errCode < 4000 then
      if errCode == 3005 || errCode == 3002 then ClientError else ServerError
    else if ContainsAny(msg, v.server) then ServerError
    else if msg != [] || errCode != 0 || statusCode != 0 then Unknown
    else None
  }

  /** ClassifyXRootDError. */
  function Classify(statusCode: int, errCode: int, message: string): ErrorClass {
    ClassifyBy(XRootDWords(), statusCode, errCode, Normalize(message))
  }

  lemma {:induction false} NothingInEmpty(words: seq<string>)
    requires NoEmptyWord(words)
    ensures !ContainsAny([], words)
  {
    if words != [] {
      NothingInEmpty(words[1..]);
    }
  }

  lemma NoneByMeansNoError(v: Vocabulary, statusCode: int, errCode: int, msg: string)
    requires v.Valid()
    ensures ClassifyBy(v, statusCode, errCode, msg) == None <==> msg == [] && errCode == 0 && statusCode == 0
  {
    NothingInEmpty(v.auth);
    NothingInEmpty(v.notFound);
    NothingInEmpty(v.redirect);
    NothingInEmpty(v.timeout);
    NothingInEmpty(v.trust);
    NothingInEmpty(v.connection);
    NothingInEmpty(v.server);
  }

  /** Only the absence of any error classifies as None. */
  lemma NoneMeansNoError(statusCode: int, errCode: int, message: string)
    ensures Classify(statusCode, errCode, message) == None <==> message == [] && errCode == 0 && statusCode == 0
  {
    NoneByMeansNoError(XRootDWords(), statusCode, errCode, Normalize(message));
  }

  lemma {:induction false} FoundAnywhere(front: string, word: string, back: string)
    ensures Contains(front + word + back, word)
  {
    var s := front + word + back;
    if front == [] {
      assert s[..|word|] == word;
    } else {
      FoundAnywhere(front[1..], word, back);
      assert s[1..] == front[1..] + word + back;
    }
  }

  lemma {:induction false} FoundSomewhere(s: string, word: string) returns (front: string, back: string)
    requires Contains(s, word)
    ensures s == front + word + back
  {
    if |s| >= |word| && s[..|word|] == word {
      front, back := [], s[|word|..];
    } else {
      front, back := FoundSomewhere(s[1..], word);
      front := [s[0]] + front;
    }
  }

  /** The words are looked for anywhere in the message. */
  lemma ContainsMeans(s: string, word: string)
    ensures Contains(s, word) <==> exists front: string, back: string :: s == front + word + back
  {
    hide Contains;
    if Contains(s, word) {
      var front, back := FoundSomewhere(s, word);
    }
    if front: string, back: string :| s == front + word + back {
      FoundAnywhere(front, word, back);
    }
  }

  lemma {:induction false} AnyMeans(s: string, words: seq<string>)
    ensures ContainsAny(s, words) <==> exists k :: 0 <= k < |words| && Contains(s, words[k])
  {
    if words != [] {
      AnyMeans(s, words[1..]);
      if k :| 0 <= k < |words[1..]| && Contains(s, words[1..][k]) {
        assert Contains(s, words[k + 1]);
      }
      if k :| 0 < k < |words| && Contains(s, words[k]) {
        assert Contains(s, words[1..][k - 1]);
      }
    }
  }

  /** With no word that gives a class away, as in an empty message, the code decides. */
  lemma CodeDecides(v: Vocabulary, statusCode: int, errCode: int, msg: string)
    requires !ContainsAny(msg, v.auth) && !ContainsAny(msg, v.notFound) && !ContainsAny(msg, v.redirect)
    requires !ContainsAny(msg, v.timeout) && !ContainsAny(msg, v.trust) && !ContainsAny(msg, v.connection)
    requires !ContainsAny(msg, v.server)
    ensures var c := ClassifyBy(v, statusCode, errCode, msg);
            && (c == Auth <==> errCode == 3010)
            && (c == NotFound <==> errCode == 3001)
            && (c == Timeout <==> errCode == 110)
            && (c == Connection <==> errCode == 111 || errCode == 104 || errCode == 11)
            && (c == ClientError <==> errCode == 3005 || errCode == 3002)
            && (c == ServerError <==>
                  3000 <= errCode < 4000 && errCode != 3010 && errCode != 3001 && errCode != 3005 && errCode != 3002)
            && (c == None <==> msg == [] && errCode == 0 && statusCode == 0)
            && c != RedirectLoop && c != Trust
  {
  }

  /** Words come before most codes, and in this order. */
  lemma WordsDecide(v: Vocabulary, statusCode: int, errCode: int, msg: string)
    ensures var c := ClassifyBy(v, statusCode, errCode, msg);
            && (ContainsAny(msg, v.auth) ==> c == Auth)
            && (c == Auth || errCode == 3010 || (ContainsAny(msg, v.notFound) ==> c == NotFound))
            && (c == Auth || c == NotFound || (ContainsAny(msg, v.redirect) ==> c == RedirectLoop))
            && (c == Auth || c == NotFound || c == RedirectLoop || (ContainsAny(msg, v.timeout) ==> c == Timeout))
            && (c == Auth || c == NotFound || c == RedirectLoop || c == Timeout
                || (ContainsAny(msg, v.trust) ==> c == Trust))
            && (c == Auth || c == NotFound || c == RedirectLoop || c == Timeout || c == Trust
                || (ContainsAny(msg, v.connection) ==> c == Connection))
            && (c == Auth || c == NotFound || c == RedirectLoop || c == Timeout || c == Trust || c == Connection
                || c == ClientError || (ContainsAny(msg, v.server) ==> c == ServerError))
  {
  }

  // ---- the wall timeout --------------------------------------------------------------------

  /** Character b follows a at position i. */
  predicate PairAt(s: string, i: nat, a: char, b: char) {
    i + 1 < |s| && s[i] == a && s[i + 1] == b
  }

  /** A word whose first two characters do not follow one another in s is not in s. */
  lemma PairMissing(s: string, word: string)
    requires |word| >= 2 && forall i :: 0 <= i < |s| ==> !PairAt(s, i, word[0], word[1])
    ensures !Contains(s, word)
  {
    ContainsMeans(s, word);
    forall front: string, back: string
      ensures s != front + word + back {
      if s == front + word + back {
        assert s[|front|] == word[0] && s[|front| + 1] == word[1];
        assert PairAt(s, |front|, word[0], word[1]);
        assert false;
      }
    }
  }

  lemma {:induction false} NoWordIn(s: string, words: seq<string>)
    requires forall k :: 0 <= k < |words| ==>
               |words[k]| >= 2 && forall i :: 0 <= i < |s| ==> !PairAt(s, i, words[k][0], words[k][1])
    ensures !ContainsAny(s, words)
  {
    hide PairAt, Contains;
    if words != [] {
      PairMissing(s, words[0]);
      NoWordIn(s, words[1..]);
    }
  }

  const WALL_TIMEOUT := "session wall timeout"

  /** The text has no capitals, nor the pairs of letters the words for other classes begin with. */
  lemma LettersOfWallTimeout(i: nat)
    requires i < |WALL_TIMEOUT|
    ensures !PairAt(WALL_TIMEOUT, i, 'n', 'o') && !PairAt(WALL_TIMEOUT, i, 'a', 'u')
    ensures !PairAt(WALL_TIMEOUT, i, 'p', 'e') && !PairAt(WALL_TIMEOUT, i, 'e', 'a')
    ensures !PairAt(WALL_TIMEOUT, i, 'g', 's') && !PairAt(WALL_TIMEOUT, i, 'r', 'e')
    ensures !PairAt(WALL_TIMEOUT, i, 't', 'o')
    ensures WALL_TIMEOUT[i] == ' ' || WALL_TIMEOUT[i] >= 'a'
  {
    if i < 10 {
      if i < 5 {
      } else {
      }
    } else if i < 15 {
    } else {
    }
  }

  lemma WallTimeoutIsLowerCase()
    ensures Normalize(WALL_TIMEOUT) == WALL_TIMEOUT
  {
    forall i | 0 <= i < |WALL_TIMEOUT| ensures Lower(WALL_TIMEOUT[i]) == WALL_TIMEOUT[i] {
      LettersOfWallTimeout(i);
      hide WALL_TIMEOUT, PairAt;
    }
  }

  predicate StartsOtherwise(word: string) {
    |word| >= 2 && [word[0], word[1]] in ["no", "au", "pe", "ea", "gs", "re", "to"]
  }

  lemma NoOtherWord(words: seq<string>)
    requires forall k :: 0 <= k < |words| ==> StartsOtherwise(words[k])
    ensures !ContainsAny(WALL_TIMEOUT, words)
  {
    hide PairAt, ContainsAny, Contains;
    forall k | 0 <= k < |words|
      ensures |words[k]| >= 2
      ensures forall i :: 0 <= i < |WALL_TIMEOUT| ==> !PairAt(WALL_TIMEOUT, i, words[k][0], words[k][1])
    {
      assert StartsOtherwise(words[k]);
      var pair := [words[k][0], words[k][1]];
      assert pair[0] == words[k][0] && pair[1] == words[k][1];
      forall i | 0 <= i < |WALL_TIMEOUT|
        ensures !PairAt(WALL_TIMEOUT, i, words[k][0], words[k][1])
      {
        LettersOfWallTimeout(i);
      }
    }
    NoWordIn(WALL_TIMEOUT, words);
  }

  /** A wall timeout is classified as a timeout, whatever the status code. */
  lemma WallTimeoutIsTimeout(statusCode: int)
    ensures Classify(statusCode, 110, WALL_TIMEOUT) == Timeout
  {
    hide ContainsAny, Normalize;
    WallTimeoutIsLowerCase();
    var v := XRootDWords();
    NoOtherWord(v.auth);
    NoOtherWord(v.notFound);
    NoOtherWord(v.redirect);
  }
}
