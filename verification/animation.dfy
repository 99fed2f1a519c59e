/**
 The sample's animation panel (`AnimationManager`): cycling through a list
 of animation names with previous/next buttons, the caption that shows the
 current name, and the humanoid description read from the `human_bones`
 line file.

 The panel is a value: the animation names, the current index, the caption
 (absent when the scene has no `Text` for it), whether an Animator has been
 attached, and the clip last asked to play. The skinned mesh is reduced to
 its bones' names and their parents' names; bind poses and the matrix
 arithmetic on them are not part of this model.
 */
module AnimationManager {
  import opened Results
  import Text

  datatype AnimationPanel = AnimationPanel(
    animations: seq<string>,
    current: int,
    caption: Option<string>,
    hasAnimator: bool,
    playing: Option<string>)

  // ---------------------------------------------------------------------------
  // Cycling through the animations

  /**
   The index update of `ChangeCurrentAnimation`: stepping below zero jumps to
   the last animation, stepping past the end jumps to the first. For a step
   of at most one from a valid index this is addition modulo the count.
   */
  function WrapIndex(current: int, delta: int, count: int): (r: int)
    ensures count > 0 && 0 <= current < count && -1 <= delta <= 1 ==> 0 <= r < count
    ensures count > 0 && 0 <= current < count && -1 <= delta <= 1 ==> r == (current + delta) % count
  {
    var stepped := current + delta;
    var notNegative := if stepped < 0 then count - 1 else stepped;
    if notNegative >= count then 0 else notNegative
  }

  /** Previous from the first animation gives the last, next from the last gives the first. */
  lemma WrapAround(count: int)
    requires count > 0
    ensures WrapIndex(0, -1, count) == count - 1
    ensures WrapIndex(count - 1, 1, count) == 0
  {
  }

  /** Next then previous, or previous then next, returns to the same animation. */
  lemma NextPrevInverse(current: int, count: int)
    requires count > 0 && 0 <= current < count
    ensures WrapIndex(WrapIndex(current, 1, count), -1, count) == current
    ensures WrapIndex(WrapIndex(current, -1, count), 1, count) == current
  {
  }

  /** The caption text for an animation: its name with every underscore shown as a space. */
  function DisplayName(animation: string): (r: string)
    ensures |r| == |animation|
    ensures '_' !in r
    ensures forall i :: 0 <= i < |animation| && animation[i] != '_' ==> r[i] == animation[i]
    ensures forall i :: 0 <= i < |animation| && animation[i] == '_' ==> r[i] == ' '
  {
    Text.ReplaceChar(animation, '_', ' ')
  }

  /** A displayed name is already free of underscores, so showing it again changes nothing. */
  lemma DisplayNameIdempotent(animation: string)
    ensures DisplayName(DisplayName(animation)) == DisplayName(animation)
  {
  }

  /** `PlayCurrentAnimation`: without an Animator nothing happens. */
  function PlayCurrent(panel: AnimationPanel): (r: Result<AnimationPanel>)
    ensures !panel.hasAnimator ==> r == Ok(panel)
    ensures panel.hasAnimator && 0 <= panel.current < |panel.animations| ==>
      r == Ok(panel.(playing := Some(panel.animations[panel.current])))
    ensures panel.hasAnimator && !(0 <= panel.current < |panel.animations|) ==> r == Err(IndexOutOfRange)
  {
    if !panel.hasAnimator then Ok(panel)
    else if 0 <= panel.current < |panel.animations| then Ok(panel.(playing := Some(panel.animations[panel.current])))
    else Err(IndexOutOfRange)
  }

  /** Shows the current animation's name on the caption, when there is one. */
  function ShowCurrent(panel: AnimationPanel): (r: Result<AnimationPanel>)
    ensures r.Ok? ==> r.value.animations == panel.animations && r.value.current == panel.current
    ensures r.Ok? ==> r.value.hasAnimator == panel.hasAnimator && r.value.playing == panel.playing
    ensures r.Ok? ==> r.value.caption.Some? == panel.caption.Some?
    ensures r.Err? <==> panel.caption.Some? && !(0 <= panel.current < |panel.animations|)
    ensures r.Ok? && panel.caption.Some? ==> r.value.caption == Some(DisplayName(panel.animations[panel.current]))
  {
    if panel.caption.None? then Ok(panel)
    else if 0 <= panel.current < |panel.animations| then
      Ok(panel.(caption := Some(DisplayName(panel.animations[panel.current]))))
    else Err(IndexOutOfRange)
  }

  /**
   `ChangeCurrentAnimation(delta)`: move the index, show the new name, play it.
   With at least one animation and a valid index it never fails, and the
   caption and the played clip both name the new current animation.
   */
  function ChangeCurrentAnimation(panel: AnimationPanel, delta: int): (r: Result<AnimationPanel>)
    ensures r.Ok? ==> r.value.current == WrapIndex(panel.current, delta, |panel.animations|)
    ensures r.Ok? ==> r.value.animations == panel.animations && r.value.hasAnimator == panel.hasAnimator
    ensures r.Ok? ==> r.value.caption.Some? == panel.caption.Some?
    ensures r.Ok? && !panel.hasAnimator ==> r.value.playing == panel.playing
    ensures r.Err? <==> (panel.caption.Some? || panel.hasAnimator)
                        && !(0 <= WrapIndex(panel.current, delta, |panel.animations|) < |panel.animations|)
    ensures |panel.animations| > 0 && 0 <= panel.current < |panel.animations| && -1 <= delta <= 1 ==>
      && r.Ok?
      && 0 <= r.value.current < |panel.animations|
      && (panel.caption.Some? ==> r.value.caption == Some(DisplayName(panel.animations[r.value.current])))
      && (panel.hasAnimator ==> r.value.playing == Some(panel.animations[r.value.current]))
  {
    var moved := panel.(current := WrapIndex(panel.current, delta, |panel.animations|));
    var shown :- ShowCurrent(moved);
    PlayCurrent(shown)
  }

  /** `OnPrevAnimation`. */
  function OnPrevAnimation(panel: AnimationPanel): (r: Result<AnimationPanel>)
    ensures r.Ok? ==> r.value.current == WrapIndex(panel.current, -1, |panel.animations|)
    ensures |panel.animations| > 0 && panel.current == 0 ==> r.Ok? && r.value.current == |panel.animations| - 1
  {
    ChangeCurrentAnimation(panel, -1)
  }

  /** `OnNextAnimation`. */
  function OnNextAnimation(panel: AnimationPanel): (r: Result<AnimationPanel>)
    ensures r.Ok? ==> r.value.current == WrapIndex(panel.current, 1, |panel.animations|)
    ensures |panel.animations| > 0 && panel.current == |panel.animations| - 1 ==> r.Ok? && r.value.current == 0
  {
    ChangeCurrentAnimation(panel, 1)
  }

  /** Pressing next and then previous brings the panel back to the animation it showed. */
  lemma NextThenPrev(panel: AnimationPanel)
    requires |panel.animations| > 0 && 0 <= panel.current < |panel.animations|
    ensures OnNextAnimation(panel).Ok?
    ensures OnPrevAnimation(OnNextAnimation(panel).value).Ok?
    ensures OnPrevAnimation(OnNextAnimation(panel).value).value.current == panel.current
  {
    NextPrevInverse(panel.current, |panel.animations|);
  }

  /**
   `CreateAnimator`: re-shows (and, with an earlier Animator, replays) the
   current animation, then attaches an Animator. The index is unchanged.
   */
  function CreateAnimator(panel: AnimationPanel): (r: Result<AnimationPanel>)
    ensures r.Ok? ==> r.value.hasAnimator
    ensures 0 <= panel.current < |panel.animations| ==> r.Ok? && r.value.current == panel.current
    ensures r.Ok? ==> r.value.animations == panel.animations && r.value.current == WrapIndex(panel.current, 0, |panel.animations|)
    ensures r.Ok? ==> r.value.caption.Some? == panel.caption.Some?
    ensures r.Ok? && panel.caption.Some? ==>
      0 <= r.value.current < |panel.animations| && r.value.caption == Some(DisplayName(panel.animations[r.value.current]))
    ensures r.Ok? && !panel.hasAnimator ==> r.value.playing == panel.playing
    ensures r.Err? <==> (panel.caption.Some? || panel.hasAnimator) && !(0 <= WrapIndex(panel.current, 0, |panel.animations|) < |panel.animations|)
  {
    var changed :- ChangeCurrentAnimation(panel, 0);
    Ok(changed.(hasAnimator := true))
  }

  // ---------------------------------------------------------------------------
  // The humanoid description

  /** One line of `human_bones`: a skeleton bone's name and the humanoid bone it plays. */
  datatype HumanBone = HumanBone(boneName: string, humanName: string)

  const LineBreak: string := "\r\n"
  const FieldSeparator: string := ","

  /** The fields of one line. */
  function Fields(line: string): (r: seq<string>)
    ensures |r| >= 1
  {
    Text.Split(line, FieldSeparator)
  }

  /** A line has a human name when it has at least two fields; otherwise reading `names[1]` throws. */
  predicate HasTwoFields(line: string)
  {
    |Fields(line)| >= 2
  }

  /** One `HumanBone` per line, from the line's first two fields; a line with fewer fields throws. */
  function ParseLines(lines: seq<string>): (r: Result<seq<HumanBone>>)
    ensures r.Ok? <==> forall i :: 0 <= i < |lines| ==> HasTwoFields(lines[i])
    ensures r.Err? ==> r.fault == IndexOutOfRange
    ensures r.Ok? ==> |r.value| == |lines|
    ensures r.Ok? ==> forall i :: 0 <= i < |lines| ==>
      r.value[i] == HumanBone(Fields(lines[i])[0], Fields(lines[i])[1])
  {
    if |lines| == 0 then Ok([])
    else
      var names := Fields(lines[0]);
      if |names| < 2 then Err(IndexOutOfRange)
      else
        var rest :- ParseLines(lines[1..]);
        Ok([HumanBone(names[0], names[1])] + rest)
  }

  /** The non-empty `\r\n`-separated lines of a text. */
  function Lines(text: string): (r: seq<string>)
    ensures forall i :: 0 <= i < |r| ==> r[i] != ""
  {
    Text.RemoveEmpty(Text.Split(text, LineBreak))
  }

  /**
   The `human_bones` part of `BuildHumanDescription`: the resource must
   exist (a missing one is dereferenced as null), and every non-empty line
   must hold a bone name and a human name separated by a comma.
   */
  function ParseHumanBones(resource: Option<string>): (r: Result<seq<HumanBone>>)
    ensures resource.None? ==> r == Err(NullReference)
    ensures resource.Some? ==> r == ParseLines(Lines(resource.value))
  {
    if resource.None? then Err(NullReference)
    else ParseLines(Lines(resource.value))
  }

  /** The `human_bones` text that describes the given pairs, one `bone,human` line each. */
  function RenderHumanBones(bones: seq<HumanBone>): string
  {
    Text.Join(seq(|bones|, i requires 0 <= i < |bones| => bones[i].boneName + FieldSeparator + bones[i].humanName), LineBreak)
  }

  /** A name that can be written on a `human_bones` line and read back unchanged. */
  predicate PlainName(name: string)
  {
    forall i :: 0 <= i < |name| ==> name[i] != ',' && name[i] != '\r'
  }

  /** A line written as `bone,human` reads back as the same pair. */
  lemma ParseOneLine(bone: HumanBone)
    requires PlainName(bone.boneName) && PlainName(bone.humanName)
    ensures Fields(bone.boneName + FieldSeparator + bone.humanName) == [bone.boneName, bone.humanName]
  {
    var parts := [bone.boneName, bone.humanName];
    assert Text.Join(parts, FieldSeparator) == bone.boneName + FieldSeparator + bone.humanName by {
      assert parts[1..] == [bone.humanName];
    }
    Text.SplitJoin(parts, FieldSeparator);
  }

  /**
   Reading the `human_bones` text gives back, in order, exactly the pairs it
   was written from, provided no name holds a comma or a carriage return.
   */
  lemma {:induction false} ParseRender(bones: seq<HumanBone>)
    requires forall i :: 0 <= i < |bones| ==> PlainName(bones[i].boneName) && PlainName(bones[i].humanName)
    ensures ParseHumanBones(Some(RenderHumanBones(bones))) == Ok(bones)
  {
    var lines := seq(|bones|, i requires 0 <= i < |bones| => bones[i].boneName + FieldSeparator + bones[i].humanName);
    if |bones| == 0 {
      assert Text.Split("", LineBreak) == [""];
    } else {
      forall i | 0 <= i < |lines|
        ensures LineBreak[0] !in lines[i]
        ensures lines[i] != ""
      {
        assert lines[i][|bones[i].boneName|] == ',';
      }
      Text.SplitJoin(lines, LineBreak);
      assert Lines(RenderHumanBones(bones)) == lines;
      forall i | 0 <= i < |lines|
        ensures HasTwoFields(lines[i])
        ensures HumanBone(Fields(lines[i])[0], Fields(lines[i])[1]) == bones[i]
      {
        ParseOneLine(bones[i]);
      }
      assert ParseLines(lines).value == bones;
    }
  }

  // ---------------------------------------------------------------------------
  // Parents of the skeleton bones

  /** A bone of the skinned mesh: its name and its parent transform's name (`None` when it has no parent). */
  datatype BoneNode = BoneNode(name: string, parent: Option<string>)

  /** `List.FindIndex` by name: the first position holding `name`, or -1. */
  function FindIndex(names: seq<string>, name: string): (r: int)
    ensures -1 <= r < |names|
    ensures r >= 0 ==> names[r] == name && forall j :: 0 <= j < r ==> names[j] != name
    ensures r == -1 <==> name !in names
  {
    if |names| == 0 then -1
    else if names[0] == name then 0
    else
      var k := FindIndex(names[1..], name);
      if k < 0 then -1 else k + 1
  }

  function BoneNames(bones: seq<BoneNode>): (r: seq<string>)
    ensures |r| == |bones|
    ensures forall i :: 0 <= i < |bones| ==> r[i] == bones[i].name
  {
    seq(|bones|, i requires 0 <= i < |bones| => bones[i].name)
  }

  /**
   The parent index `BuildHumanDescription` uses for one bone: the parent's
   first position among the bones, but only when that position is strictly
   greater than 0. A parent at position 0, or one that is not among the
   bones, counts as no parent.
   */
  function ParentLink(names: seq<string>, parent: string): (r: Option<nat>)
    ensures r.Some? ==> 0 < r.value < |names| && names[r.value] == parent
    ensures r.Some? ==> forall j :: 0 <= j < r.value ==> names[j] != parent
    ensures r.None? <==> parent !in names || names[0] == parent
  {
    var k := FindIndex(names, parent);
    if k > 0 then Some(k) else None
  }

  /**
   The parent links of all bones; a bone without a parent transform is
   dereferenced as null and throws.
   */
  function ParentLinks(bones: seq<BoneNode>): (r: Result<seq<Option<nat>>>)
    ensures r.Ok? <==> forall i :: 0 <= i < |bones| ==> bones[i].parent.Some?
    ensures r.Err? ==> r.fault == NullReference
    ensures r.Ok? ==> |r.value| == |bones|
    ensures r.Ok? ==> forall i :: 0 <= i < |bones| ==>
      r.value[i] == ParentLink(BoneNames(bones), bones[i].parent.value)
  {
    if exists i :: 0 <= i < |bones| && bones[i].parent.None? then Err(NullReference)
    else Ok(seq(|bones|, i requires 0 <= i < |bones| => ParentLink(BoneNames(bones), bones[i].parent.value)))
  }

  /** What `BuildHumanDescription` hands to the avatar builder, minus the poses. */
  datatype HumanDescription = HumanDescription(human: seq<HumanBone>, skeleton: seq<string>, parents: seq<Option<nat>>)

  function BuildHumanDescription(resource: Option<string>, bones: seq<BoneNode>): (r: Result<HumanDescription>)
    ensures r.Ok? ==> ParseHumanBones(resource) == Ok(r.value.human)
    ensures r.Ok? ==> r.value.skeleton == BoneNames(bones) && ParentLinks(bones) == Ok(r.value.parents)
    ensures r.Err? <==> ParseHumanBones(resource).Err? || ParentLinks(bones).Err?
  {
    var human :- ParseHumanBones(resource);
    var parents :- ParentLinks(bones);
    Ok(HumanDescription(human, BoneNames(bones), parents))
  }

  /**
   `CreateHumanoidAnimator`: attach an Animator with the humanoid built from
   the description, then reset the index to the first animation and show
   its name. Nothing is played.
   */
  function CreateHumanoidAnimator(panel: AnimationPanel, resource: Option<string>, bones: seq<BoneNode>)
    : (r: Result<(AnimationPanel, HumanDescription)>)
    ensures r.Ok? ==> r.value.0.current == 0 && r.value.0.hasAnimator
    ensures r.Ok? ==> r.value.0.animations == panel.animations && r.value.0.playing == panel.playing
    ensures r.Ok? ==> BuildHumanDescription(resource, bones) == Ok(r.value.1)
    ensures r.Ok? ==> r.value.0.caption.Some? == panel.caption.Some?
    ensures r.Err? <==> BuildHumanDescription(resource, bones).Err? || (panel.caption.Some? && |panel.animations| == 0)
    ensures r.Ok? && panel.caption.Some? ==> |panel.animations| > 0
    ensures r.Ok? && panel.caption.Some? ==> r.value.0.caption == Some(DisplayName(panel.animations[0]))
    ensures BuildHumanDescription(resource, bones).Ok? && |panel.animations| > 0 ==> r.Ok?
  {
    var description :- BuildHumanDescription(resource, bones);
    var reset := panel.(hasAnimator := true, current := 0);
    var shown :- ShowCurrent(reset);
    Ok((shown, description))
  }
}
