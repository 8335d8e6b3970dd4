/**
 * The fast path of the upload handler: the uploaded basename is looked up
 * in the loaded `filenames` array (app.py:186-188). `name in filenames` is
 * a membership test, and `np.where(filenames == name)[0]` is the ascending
 * list of every index holding `name`, of which the handler takes the first.
 */
module ReferenceLookup {

  /** `np.where(names == name)[0]`: every index of `names` that holds `name`, in ascending order. */
  function MatchIndices(names: seq<string>, name: string): (r: seq<nat>)
    ensures forall k :: 0 <= k < |r| ==> r[k] < |names| && names[r[k]] == name
    ensures forall i :: 0 <= i < |names| && names[i] == name ==> i in r
    ensures forall a, b :: 0 <= a < b < |r| ==> r[a] < r[b]
  {
    if |names| == 0 then []
    else
      var last := |names| - 1;
      MatchIndices(names[..last], name) + (if names[last] == name then [last] else [])
  }

  /** `name in filenames` holds exactly when `np.where` finds at least one index. */
  lemma {:induction false} MatchIndicesNonEmpty(names: seq<string>, name: string)
    ensures name in names <==> |MatchIndices(names, name)| > 0
  {
    var r := MatchIndices(names, name);
    if name in names {
      var i :| 0 <= i < |names| && names[i] == name;
      assert i in r;
    }
    if |r| > 0 {
      assert names[r[0]] == name;
    }
  }

  /** `np.where(filenames == name)[0][0]`, taken only after `name in filenames` succeeded. */
  function FirstMatchIndex(names: seq<string>, name: string): (idx: nat)
    requires name in names
    ensures idx < |names| && names[idx] == name
    ensures forall j :: 0 <= j < idx ==> names[j] != name
  {
    MatchIndicesNonEmpty(names, name);
    var r := MatchIndices(names, name);
    forall j | 0 <= j < |names| && names[j] == name ensures r[0] <= j {
      var k :| 0 <= k < |r| && r[k] == j;
      assert k == 0 || r[0] < r[k];
    }
    r[0]
  }

  /** When the names are unique, the first match is the only match. */
  lemma FirstMatchIndexUnique(names: seq<string>, name: string, i: nat)
    requires forall a, b :: 0 <= a < b < |names| ==> names[a] != names[b]
    requires i < |names| && names[i] == name
    ensures FirstMatchIndex(names, name) == i
  {
  }
}
