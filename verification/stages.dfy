/**
 * A project's stage as the cards and the details page show it: a colour
 * class chosen case-insensitively, and a label with its first character
 * upper-cased. `ProjectCard` and `ProjectDetails` each define the same
 * mapping; it is written once here.
 */
module Stages {
  import opened Text

  /** The stages the creation form offers, in its order. */
  const Choices: seq<string> := ["idea", "prototype", "mvp", "launched"]

  const IdeaColor := "bg-yellow-100 text-yellow-800 border-yellow-200"
  const PrototypeColor := "bg-blue-100 text-blue-800 border-blue-200"
  const MvpColor := "bg-purple-100 text-purple-800 border-purple-200"
  const LaunchedColor := "bg-green-100 text-green-800 border-green-200"
  const DefaultColor := "bg-gray-100 text-gray-800 border-gray-200"

  /** `getStageColor`: the lower-cased stage picks a colour; anything else is gray. */
  function StageColor(stage: string): (color: string)
    ensures color != DefaultColor <==> Lower(stage) in Choices
    ensures Lower(stage) == "idea" <==> color == IdeaColor
    ensures Lower(stage) == "prototype" <==> color == PrototypeColor
    ensures Lower(stage) == "mvp" <==> color == MvpColor
    ensures Lower(stage) == "launched" <==> color == LaunchedColor
  {
    var normalized := Lower(stage);
    if normalized == "idea" then IdeaColor
    else if normalized == "prototype" then PrototypeColor
    else if normalized == "mvp" then MvpColor
    else if normalized == "launched" then LaunchedColor
    else DefaultColor
  }

  /** `stage.charAt(0).toUpperCase() + stage.slice(1)`. */
  function StageLabel(stage: string): (shown: string)
    ensures |shown| == |stage|
    ensures |stage| > 0 ==> shown[0] == UpperChar(stage[0]) && shown[1..] == stage[1..]
  {
    if |stage| == 0 then "" else [UpperChar(stage[0])] + stage[1..]
  }

  /** Upper-casing a character does not change what it lower-cases to. */
  lemma LowerOfUpperChar(c: char)
    ensures LowerChar(UpperChar(c)) == LowerChar(c)
  {
  }

  /** The colour ignores case: a stage, its lower-cased form and its label all get the same colour. */
  lemma {:induction false} ColorIgnoresCase(stage: string)
    ensures StageColor(Lower(stage)) == StageColor(stage)
    ensures StageColor(StageLabel(stage)) == StageColor(stage)
  {
    LowerIdempotent(stage);
    if |stage| > 0 {
      LowerOfUpperChar(stage[0]);
      assert Lower(StageLabel(stage)) == Lower(stage);
    } else {
      assert StageLabel(stage) == stage;
    }
  }

  /** Every stage the form offers gets its own, non-gray colour, and its label starts upper-case. */
  lemma ChoicesColored()
    ensures forall i :: 0 <= i < |Choices| ==> StageColor(Choices[i]) != DefaultColor
    ensures forall i, j :: 0 <= i < j < |Choices| ==> StageColor(Choices[i]) != StageColor(Choices[j])
    ensures StageLabel("mvp") == "Mvp" && StageLabel("idea") == "Idea"
  {
    assert Lower("idea") == "idea";
    assert Lower("prototype") == "prototype";
    assert Lower("mvp") == "mvp";
    assert Lower("launched") == "launched";
  }
}
