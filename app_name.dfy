/**
 * `normalizeAppName`: turns a Marathon application id, a slash-separated path
 * such as "/team/service", into a flat tag value such as "team_service".
 */
module AppName {
  import opened Strings

  /**
   * Every '/' becomes '_'; then, if the first character of the result is '_'
   * (whether it was a '/' or already a '_'), exactly that one character is
   * dropped. Everything else keeps its place, shifted left by the drop.
   * Indexing the first character panics on an empty id, hence the requires.
   */
  function NormalizeAppName(input: string): (output: string)
    requires input != ""
    ensures '/' !in output
    ensures var drop := if input[0] == '/' || input[0] == '_' then 1 else 0;
      && |output| == |input| - drop
      && forall i :: 0 <= i < |output| ==>
           output[i] == if input[i + drop] == '/' then '_' else input[i + drop]
  {
    var output := ReplaceAll(input, '/', '_');
    if output[0] == '_' then output[1..] else output
  }

  /** A character other than '/' and '_' occurs in the name exactly where it occurs in the id. */
  lemma NormalizeKeepsOtherChars(input: string, c: char)
    requires input != "" && c != '/' && c != '_'
    ensures c in NormalizeAppName(input) <==> c in input
  {
    var output := NormalizeAppName(input);
    var drop := if input[0] == '/' || input[0] == '_' then 1 else 0;
    if c in input {
      var j :| 0 <= j < |input| && input[j] == c;
      assert j >= drop;
      assert output[j - drop] == c;
    }
    if c in output {
      var i :| 0 <= i < |output| && output[i] == c;
      assert input[i + drop] == c;
    }
  }

  /** Only one leading underscore goes, and a lone "/" becomes the empty name. */
  lemma NormalizeExamples()
    ensures NormalizeAppName("/team/service") == "team_service"
    ensures NormalizeAppName("team/service") == "team_service"
    ensures NormalizeAppName("/") == ""
    ensures NormalizeAppName("//a") == "_a"
    ensures NormalizeAppName("__a") == "_a"
  {
  }

  /** Distinct ids can share one name, so two lines may carry the same tag value. */
  lemma NormalizeCollides()
    ensures NormalizeAppName("/a/b") == NormalizeAppName("a/b") == NormalizeAppName("a_b")
    ensures NormalizeAppName("_a_b") == "a_b"
  {
  }
}
