/** The tail of `labelAPI`: the classifier's annotations reduced to `{description, score}`. */
module Labels {
  import opened Common

  /** The entry pushed for one annotation: its description and score only. */
  function ToLabel(a: Annotation): Label
  {
    Label(a.description, a.score)
  }

  /** The projection of a present annotation list: same length, same order, each entry
      reduced to its description and score. */
  function ProjectAll(annotations: seq<Annotation>): (r: seq<Label>)
    ensures |r| == |annotations|
    ensures forall i :: 0 <= i < |r| ==> r[i] == ToLabel(annotations[i])
  {
    if annotations == [] then [] else [ToLabel(annotations[0])] + ProjectAll(annotations[1..])
  }

  /** The labels `labelAPI` returns for `result.labelAnnotations`: none when it is absent. */
  function Projected(annotations: Option<seq<Annotation>>): (r: seq<Label>)
    ensures annotations.None? ==> r == []
    ensures annotations.Some? ==> |r| == |annotations.value|
    ensures annotations.Some? ==> forall i :: 0 <= i < |r| ==>
      r[i].description == annotations.value[i].description && r[i].score == annotations.value[i].score
  {
    match annotations
    case None => []
    case Some(list) => ProjectAll(list)
  }

  /** `labelAPI` after the classifier has answered: `o` starts empty and each annotation
      is pushed onto it in order. */
  method LabelApi(annotations: Option<seq<Annotation>>) returns (o: seq<Label>)
    ensures o == Projected(annotations)
  {
    o := [];
    if annotations.Some? {
      var list := annotations.value;
      var i := 0;
      while i < |list|
        invariant 0 <= i <= |list|
        invariant |o| == i
        invariant forall k :: 0 <= k < i ==> o[k] == ToLabel(list[k])
      {
        o := o + [ToLabel(list[i])];
        i := i + 1;
      }
    }
  }
}
