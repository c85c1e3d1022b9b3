/** The parts of the FreeCAD document the controller touches: the list of
    document objects (searched by type id) and the object properties that the
    iteration changes and restores. */
module FreeCadDocument {
  import opened Base

  /** A document object as the search sees it (its FreeCAD attributes). */
  datatype DocObject = DocObject(Name: string, TypeId: string, Label: string)

  /** The object has the wanted type id and, when a label is given, that label. */
  predicate Matches(obj: DocObject, typeId: string, matchLabel: Option<string>) {
    obj.TypeId == typeId && (matchLabel.None? || obj.Label == matchLabel.value)
  }

  /** `find_object_by_typeid`: the position in `objects` of the first object
      that matches, or None when no object does. */
  function FindObjectByTypeid(objects: seq<DocObject>, typeId: string, matchLabel: Option<string>): (r: Option<nat>)
    ensures r.Some? ==> r.value < |objects| && Matches(objects[r.value], typeId, matchLabel)
    ensures r.Some? ==> forall k :: 0 <= k < r.value ==> !Matches(objects[k], typeId, matchLabel)
    ensures r.None? <==> forall k :: 0 <= k < |objects| ==> !Matches(objects[k], typeId, matchLabel)
  {
    FindFrom(objects, typeId, matchLabel, 0)
  }

  /** The scan of `find_object_by_typeid` from position `from` on. */
  function FindFrom(objects: seq<DocObject>, typeId: string, matchLabel: Option<string>, from: nat): (r: Option<nat>)
    requires from <= |objects|
    requires forall k :: 0 <= k < from ==> !Matches(objects[k], typeId, matchLabel)
    ensures r.Some? ==> from <= r.value < |objects| && Matches(objects[r.value], typeId, matchLabel)
    ensures r.Some? ==> forall k :: 0 <= k < r.value ==> !Matches(objects[k], typeId, matchLabel)
    ensures r.None? <==> forall k :: 0 <= k < |objects| ==> !Matches(objects[k], typeId, matchLabel)
    decreases |objects| - from
  {
    if from == |objects| then None
    else if Matches(objects[from], typeId, matchLabel) then Some(from)
    else FindFrom(objects, typeId, matchLabel, from + 1)
  }

  /** `FreeCAD.ActiveDocument` as a parameter store: `getattr`/`setattr` on
      the properties of its objects. */
  class Document {
    var props: Store
  }
}
