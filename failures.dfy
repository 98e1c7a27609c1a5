/**
 * Classification of a provider failure by keywords in its error text, and
 * the fixed sentence returned to the user for each class.
 */
module Failures {

  import opened Text

  datatype Category = Auth | Quota | Safety | Timeout | Generic

  /** The `if`/`elif` chain over `str(e).lower()`. */
  function Classify(error: string): Category
  {
    var m := Lower(error);
    if Contains(m, "api key") || Contains(m, "authentication") then Auth
    else if Contains(m, "quota") || Contains(m, "rate limit") then Quota
    else if Contains(m, "safety") || Contains(m, "blocked") then Safety
    else if Contains(m, "timeout") then Timeout
    else Generic
  }

  const AuthText := "I'm having trouble with my API configuration. Please check that the API key is set correctly."
  const QuotaText := "I'm temporarily unavailable due to high demand. Please try again in a few moments."
  const SafetyText := "I can't provide a response to that request due to safety guidelines. Please try rephrasing your question."
  const TimeoutText := "I'm taking longer than usual to respond. Please try again."
  const GenericText := "I'm experiencing some technical difficulties right now. Please try again later."

  /** The sentence returned for each class of failure. */
  function FallbackText(c: Category): string
  {
    match c
    case Auth => AuthText
    case Quota => QuotaText
    case Safety => SafetyText
    case Timeout => TimeoutText
    case Generic => GenericText
  }

  /** What the user sees when the attempt failed with `error`. */
  function Fallback(error: string): string
  {
    FallbackText(Classify(error))
  }

  /** The same classification written as a rule table: the keywords of each
      class, and the order in which the classes are tried. */
  function Keywords(c: Category): seq<string>
  {
    match c
    case Auth => ["api key", "authentication"]
    case Quota => ["quota", "rate limit"]
    case Safety => ["safety", "blocked"]
    case Timeout => ["timeout"]
    case Generic => []
  }

  function Rank(c: Category): nat
  {
    match c
    case Auth => 0
    case Quota => 1
    case Safety => 2
    case Timeout => 3
    case Generic => 4
  }

  /** Some keyword of `c` occurs in the error text, ignoring case. */
  predicate Mentions(error: string, c: Category)
  {
    exists i :: 0 <= i < |Keywords(c)| && Contains(Lower(error), Keywords(c)[i])
  }

  /** The class of an error is the first class in priority order whose
      keywords it mentions, and Generic when it mentions none. */
  lemma ClassifyIsFirstMentioned(error: string, c: Category)
    ensures Classify(error) == c <==>
      (c == Generic || Mentions(error, c)) && forall d :: Rank(d) < Rank(c) ==> !Mentions(error, d)
  {
    var m := Lower(error);
    assert Mentions(error, Auth) <==> Contains(m, "api key") || Contains(m, "authentication") by {
      assert Keywords(Auth)[0] == "api key" && Keywords(Auth)[1] == "authentication";
    }
    assert Mentions(error, Quota) <==> Contains(m, "quota") || Contains(m, "rate limit") by {
      assert Keywords(Quota)[0] == "quota" && Keywords(Quota)[1] == "rate limit";
    }
    assert Mentions(error, Safety) <==> Contains(m, "safety") || Contains(m, "blocked") by {
      assert Keywords(Safety)[0] == "safety" && Keywords(Safety)[1] == "blocked";
    }
    assert Mentions(error, Timeout) <==> Contains(m, "timeout") by {
      assert Keywords(Timeout)[0] == "timeout";
    }
    assert !Mentions(error, Generic);
  }

  /** Matching ignores case: the class of a text is the class of its lower-cased form. */
  lemma ClassifyIgnoresCase(error: string)
    ensures Classify(Lower(error)) == Classify(error)
  {
    LowerIdempotent(error);
  }

  /** Each class has its own sentence, and none is empty. */
  lemma FallbackDistinct(c: Category, d: Category)
    ensures FallbackText(c) != ""
    ensures c != d ==> FallbackText(c) != FallbackText(d)
  {
    assert |AuthText| == 93 && |QuotaText| == 82 && |SafetyText| == 105;
    assert |TimeoutText| == 58 && |GenericText| == 79;
  }

  /** An error that mentions a timeout and none of the earlier classes gets
      the timeout sentence. */
  lemma TimeoutSentence(error: string)
    requires Contains(Lower(error), "timeout")
    requires !Mentions(error, Auth) && !Mentions(error, Quota) && !Mentions(error, Safety)
    ensures Fallback(error) == TimeoutText
  {
    ClassifyIsFirstMentioned(error, Timeout);
    assert Mentions(error, Timeout) by { assert Keywords(Timeout)[0] == "timeout"; }
  }

  /** An error text that lacks the letters k, u, q and f, and one of r and l,
      mentions no keyword and is classified Generic. */
  lemma GenericWithoutLetters(error: string)
    requires Lacks(Lower(error), {'k', 'u', 'q', 'f', 'l'}) || Lacks(Lower(error), {'k', 'u', 'q', 'f', 'r'})
    ensures Classify(error) == Generic
  {
    var m := Lower(error);
    var cs: set<char> := if Lacks(m, {'k', 'u', 'q', 'f', 'l'}) then {'k', 'u', 'q', 'f', 'l'} else {'k', 'u', 'q', 'f', 'r'};
    assert Lacks(m, cs);
    LacksLetter(m, "api key", 4, cs);
    LacksLetter(m, "authentication", 1, cs);
    LacksLetter(m, "quota", 0, cs);
    if 'l' in cs {
      LacksLetter(m, "rate limit", 5, cs);
    } else {
      LacksLetter(m, "rate limit", 0, cs);
    }
    LacksLetter(m, "safety", 2, cs);
    LacksLetter(m, "blocked", 4, cs);
    LacksLetter(m, "timeout", 5, cs);
  }
}
