/** Extraction of the JSON statistics block that ffmpeg's loudnorm filter prints
    at the end of its diagnostic output. Decoding JSON is not modelled: the
    decoder is a parameter that either yields an object or fails. */
module Loudnorm {
  import opened Wrappers
  import opened Strings

  /** parse_loudnorm_stats: take the text from the last '{' through the last '}'
      and decode it; an absent or misplaced brace, or a failed decode, gives {}. */
  function ParseLoudnormStats<J>(stderr: string, decode: string -> Option<map<string, J>>): (stats: map<string, J>)
    ensures RFind(stderr, '{') == -1 ==> stats == map[]
    ensures RFind(stderr, '}') < RFind(stderr, '{') ==> stats == map[]
  {
    var jsonStart := RFind(stderr, '{');
    var jsonEnd := RFind(stderr, '}') + 1;
    if jsonStart != -1 && jsonEnd > jsonStart then
      decode(stderr[jsonStart..jsonEnd]).GetOr(map[])
    else
      map[]
  }

  /** When a '{' is followed later by a '}' and neither occurs again after them,
      exactly the text between them, braces included, is decoded. */
  lemma DecodesLastBraceSlice<J>(stderr: string, decode: string -> Option<map<string, J>>, open: nat, close: nat)
    requires open < close < |stderr|
    requires stderr[open] == '{' && stderr[close] == '}'
    requires forall j :: open < j < |stderr| ==> stderr[j] != '{'
    requires forall j :: close < j < |stderr| ==> stderr[j] != '}'
    ensures ParseLoudnormStats(stderr, decode) == decode(stderr[open..close + 1]).GetOr(map[])
  {
  }
}
