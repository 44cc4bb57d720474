/** The fallback explanation and tips of a recommendation card (backend/app/services/recommendation_service.py). */
module Explanation {
  import opened Wrappers
  import opened Text

  /** `s.rstrip('.')` */
  function RStripDots(s: string): string { RStripChar(s, '.') }

  /** First line: the matched skills, else the first summary theme, else a default. */
  function FallbackFirst(matchedSkills: seq<string>, themes: seq<string>, roleTitle: string): string {
    if matchedSkills != [] then "Leverage " + Join(Take(matchedSkills, 2), ", ") + " to stand out in " + roleTitle + "."
    else if themes != [] then "Build on your focus around " + Lower(themes[0]) + " in this role."
    else "Apply your highlighted strengths to real projects in this role."
  }

  /** Second line: the coach context, else a skills line, else a default. */
  function FallbackSecond(matchedSkills: seq<string>, coachContext: string): string {
    if coachContext != "" then "Keeps you moving toward " + RStripDots(Strip(coachContext)) + " goals."
    else if matchedSkills != [] then "Plan two concrete wins showcasing those core skills this quarter."
    else "Map one short-term milestone to validate fit within 30 days."
  }

  /**
   * The fallback branch of `_generate_explanation`: the two lines above,
   * each as a "• " bullet, joined by a line break.
   */
  function ExplanationFallback(matchedSkills: seq<string>, themes: seq<string>, roleTitle: string,
                               coachContext: string): (r: string)
    ensures r == ("• " + FallbackFirst(matchedSkills, themes, roleTitle)) + "\n" + ("• " + FallbackSecond(matchedSkills, coachContext))
  {
    var parts := ["• " + FallbackFirst(matchedSkills, themes, roleTitle), "• " + FallbackSecond(matchedSkills, coachContext)];
    assert parts[1..] == [parts[1]];
    assert Join(parts[1..], "\n") == parts[1];
    assert Join(parts, "\n") == parts[0] + "\n" + Join(parts[1..], "\n");
    Join(parts, "\n")
  }

  const FirstTip := "Highlight transferable strengths and capture concrete examples."
  const RisingTip := "This role is trending up—consider networking with professionals in the field."
  const DefaultTip := "Pair these insights with informational interviews to validate fit."

  /** `_fallback_tips(trend)`: a fixed first tip, and a networking tip when the trend rises. */
  function FallbackTips(trend: Option<string>): (r: seq<string>)
    ensures |r| == 2 && r[0] == FirstTip
    ensures r[1] == (if trend.Some? && StartsWith(Strip(trend.value), "↑") then RisingTip else DefaultTip)
  {
    var t := if trend.Some? then trend.value else "";
    [FirstTip, if StartsWith(Strip(t), "↑") then RisingTip else DefaultTip]
  }
}
