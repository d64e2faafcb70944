/**
 * The ordered step collection owned by the application shell (src/App.jsx):
 * the initial data and the three `setSteps` updaters addStep, deleteStep and
 * updateStep, as functions from the previous list to the next one.
 */
module StepCollection {
  import opened Options

  /** A highlight rectangle in pixels of the step's image. */
  datatype Rect = Rect(x: int, y: int, width: int, height: int)

  /** The rectangle every added step receives. */
  const DefaultHighlight: Rect := Rect(50, 50, 200, 100)

  /** One tour step. `image` and `highlight` are keys a step object may lack. */
  datatype Step = Step(id: int, title: string, description: string, image: Option<string>, highlight: Option<Rect>)

  /**
   * The object handed to addStep. Its `id` and `highlight` keys, when present,
   * are spread first and then overwritten.
   */
  datatype Draft = Draft(title: string, description: string, image: Option<string>, id: Option<int>, highlight: Option<Rect>)

  /** The object handed to updateStep: `None` for a key the object does not have. */
  datatype Patch = Patch(id: Option<int>, title: Option<string>, description: Option<string>, image: Option<string>, highlight: Option<Rect>)

  const Welcome: Step := Step(1, "Welcome to Your Product",
    "Start your journey with our intuitive dashboard that helps you track everything in one place.",
    Some("https://images.unsplash.com/photo-1551650975-87deedd944c3?w=600&h=300&fit=crop"),
    Some(Rect(50, 100, 200, 80)))

  const Explore: Step := Step(2, "Explore Key Features",
    "Discover powerful analytics and insights that drive your business forward.",
    Some("https://images.unsplash.com/photo-1460925895917-afdab827c52f?w=600&h=300&fit=crop"),
    Some(Rect(300, 150, 250, 100)))

  const Customize: Step := Step(3, "Customize Your Experience",
    "Personalize your workspace to match your workflow and preferences.",
    Some("https://images.unsplash.com/photo-1551288049-bebda4e38f71?w=600&h=300&fit=crop"),
    Some(Rect(100, 200, 300, 120)))

  /** The collection the application starts with. */
  function InitialSteps(): (r: seq<Step>)
    ensures |r| == 3
    ensures r[0].id == 1 && r[1].id == 2 && r[2].id == 3
  {
    [Welcome, Explore, Customize]
  }

  /** The ids present in a collection. */
  function Ids(steps: seq<Step>): set<int> {
    set k | 0 <= k < |steps| :: steps[k].id
  }

  /** No two positions share an id. */
  predicate DistinctIds(steps: seq<Step>) {
    forall i, j :: 0 <= i < j < |steps| ==> steps[i].id != steps[j].id
  }

  /** addStep: the payload spread, then a fresh id and the default highlight written over it, appended. */
  function Add(steps: seq<Step>, payload: Draft, freshId: int): (r: seq<Step>)
    ensures |r| == |steps| + 1
    ensures r[..|steps|] == steps
    ensures r[|steps|].id == freshId
    ensures r[|steps|].highlight == Some(DefaultHighlight)
    ensures r[|steps|].title == payload.title && r[|steps|].description == payload.description
    ensures r[|steps|].image == payload.image
  {
    steps + [Step(freshId, payload.title, payload.description, payload.image, Some(DefaultHighlight))]
  }

  /** deleteStep: keeps the steps whose id differs from `id`, in order. */
  function Delete(steps: seq<Step>, id: int): (r: seq<Step>)
    ensures |r| <= |steps|
    ensures forall k :: 0 <= k < |r| ==> r[k].id != id
  {
    if steps == [] then []
    else (if steps[0].id != id then [steps[0]] else []) + Delete(steps[1..], id)
  }

  /** The object spread `{...step, ...patch}`: each key the patch has replaces the step's. */
  function Merge(step: Step, patch: Patch): (r: Step)
    ensures patch.id.None? ==> r.id == step.id
    ensures patch.title.None? ==> r.title == step.title
    ensures patch.description.None? ==> r.description == step.description
    ensures patch.image.None? ==> r.image == step.image
    ensures patch.highlight.None? ==> r.highlight == step.highlight
    ensures patch.id.Some? ==> r.id == patch.id.value
    ensures patch.title.Some? ==> r.title == patch.title.value
    ensures patch.description.Some? ==> r.description == patch.description.value
    ensures patch.image.Some? ==> r.image == patch.image
    ensures patch.highlight.Some? ==> r.highlight == patch.highlight
  {
    Step(patch.id.GetOr(step.id),
         patch.title.GetOr(step.title),
         patch.description.GetOr(step.description),
         if patch.image.Some? then patch.image else step.image,
         if patch.highlight.Some? then patch.highlight else step.highlight)
  }

  /** updateStep: every step whose id equals `id` gets the patch merged over it; the others are kept. */
  function Update(steps: seq<Step>, id: int, patch: Patch): (r: seq<Step>)
    ensures |r| == |steps|
    ensures forall k :: 0 <= k < |r| ==> r[k] == if steps[k].id == id then Merge(steps[k], patch) else steps[k]
  {
    if steps == [] then []
    else [if steps[0].id == id then Merge(steps[0], patch) else steps[0]] + Update(steps[1..], id, patch)
  }

  lemma InitialStepsDistinct()
    ensures DistinctIds(InitialSteps())
    ensures Ids(InitialSteps()) == {1, 2, 3}
  {
    var s := InitialSteps();
    assert s[0].id == 1 && s[1].id == 2 && s[2].id == 3;
    assert 1 in Ids(s) && 2 in Ids(s) && 3 in Ids(s);
  }

  lemma AddPreservesDistinct(steps: seq<Step>, payload: Draft, freshId: int)
    requires DistinctIds(steps)
    requires freshId !in Ids(steps)
    ensures DistinctIds(Add(steps, payload, freshId))
    ensures Ids(Add(steps, payload, freshId)) == Ids(steps) + {freshId}
  {
    var r := Add(steps, payload, freshId);
    forall i, j | 0 <= i < j < |r| ensures r[i].id != r[j].id {
      if j == |steps| {
        assert r[i] == steps[i];
        assert steps[i].id in Ids(steps);
      } else {
        assert r[i] == steps[i] && r[j] == steps[j];
      }
    }
    forall x | x in Ids(r) ensures x in Ids(steps) + {freshId} {
      var k :| 0 <= k < |r| && r[k].id == x;
      if k < |steps| { assert r[k] == steps[k]; }
    }
    forall x | x in Ids(steps) + {freshId} ensures x in Ids(r) {
      if x == freshId {
        assert r[|steps|].id == x;
      } else {
        var k :| 0 <= k < |steps| && steps[k].id == x;
        assert r[k] == steps[k];
      }
    }
  }

  /** A second step with an id already present breaks distinctness: the fresh-id requirement is needed. */
  lemma AddDuplicateIdBreaksDistinct(steps: seq<Step>, payload: Draft, id: int)
    requires id in Ids(steps)
    ensures !DistinctIds(Add(steps, payload, id))
  {
    var r := Add(steps, payload, id);
    var k :| 0 <= k < |steps| && steps[k].id == id;
    assert r[k] == steps[k];
    assert r[k].id == r[|steps|].id;
  }

  /** A step survives the delete exactly when it was present and its id differs. */
  lemma {:induction false} DeleteMembers(steps: seq<Step>, id: int, x: Step)
    ensures x in Delete(steps, id) <==> x in steps && x.id != id
  {
    if steps != [] {
      DeleteMembers(steps[1..], id, x);
      assert steps == [steps[0]] + steps[1..];
    }
  }

  lemma {:induction false} DeleteAbsent(steps: seq<Step>, id: int)
    requires id !in Ids(steps)
    ensures Delete(steps, id) == steps
  {
    if steps != [] {
      assert steps[0].id in Ids(steps);
      assert Ids(steps[1..]) <= Ids(steps) by {
        forall x | x in Ids(steps[1..]) ensures x in Ids(steps) {
          var k :| 0 <= k < |steps[1..]| && steps[1..][k].id == x;
          assert steps[k + 1].id == x;
        }
      }
      DeleteAbsent(steps[1..], id);
      assert [steps[0]] + steps[1..] == steps;
    }
  }

  /** Deleting distributes over concatenation: the survivors keep their relative order. */
  lemma {:induction false} DeleteAppend(a: seq<Step>, b: seq<Step>, id: int)
    ensures Delete(a + b, id) == Delete(a, id) + Delete(b, id)
  {
    if a == [] {
      assert a + b == b;
    } else {
      assert (a + b)[0] == a[0];
      assert (a + b)[1..] == a[1..] + b;
      DeleteAppend(a[1..], b, id);
    }
  }

  /** With distinct ids, the id at position k occurs nowhere in a slice that leaves k out. */
  lemma IdNotInSlice(steps: seq<Step>, k: nat, lo: nat, hi: nat)
    requires DistinctIds(steps)
    requires k < |steps| && lo <= hi <= |steps|
    requires k < lo || hi <= k
    ensures steps[k].id !in Ids(steps[lo..hi])
  {
  }

  /** Deleting an id found only at the middle element removes exactly that element. */
  lemma DeleteMiddle(before: seq<Step>, x: Step, after: seq<Step>)
    requires x.id !in Ids(before) && x.id !in Ids(after)
    ensures Delete(before + [x] + after, x.id) == before + after
  {
    DeleteAppend(before + [x], after, x.id);
    DeleteAppend(before, [x], x.id);
    DeleteAbsent(before, x.id);
    DeleteAbsent(after, x.id);
    assert [x][1..] == [];
  }

  /** Deleting the id found at position k of a collection with distinct ids removes exactly that position. */
  lemma {:induction false} DeleteAtPosition(steps: seq<Step>, k: nat)
    requires DistinctIds(steps)
    requires k < |steps|
    ensures Delete(steps, steps[k].id) == steps[..k] + steps[k + 1..]
  {
    IdNotInSlice(steps, k, 0, k);
    IdNotInSlice(steps, k, k + 1, |steps|);
    assert steps == steps[..k] + [steps[k]] + steps[k + 1..];
    DeleteMiddle(steps[..k], steps[k], steps[k + 1..]);
  }

  lemma {:induction false} DeletePreservesDistinct(steps: seq<Step>, id: int)
    requires DistinctIds(steps)
    ensures DistinctIds(Delete(steps, id))
  {
    if steps != [] {
      DeletePreservesDistinct(steps[1..], id);
      var rest := Delete(steps[1..], id);
      if steps[0].id != id {
        var r := [steps[0]] + rest;
        forall i, j | 0 <= i < j < |r| ensures r[i].id != r[j].id {
          if i == 0 {
            assert r[j] == rest[j - 1] && rest[j - 1] in rest;
            DeleteMembers(steps[1..], id, rest[j - 1]);
            var m :| 0 <= m < |steps[1..]| && steps[1..][m] == rest[j - 1];
            assert steps[m + 1] == r[j];
          } else {
            assert r[i] == rest[i - 1] && r[j] == rest[j - 1];
          }
        }
      }
    }
  }

  /** An absent id leaves the collection unchanged. */
  lemma {:induction false} UpdateAbsent(steps: seq<Step>, id: int, patch: Patch)
    requires id !in Ids(steps)
    ensures Update(steps, id, patch) == steps
  {
    var r := Update(steps, id, patch);
    forall k | 0 <= k < |steps| ensures r[k] == steps[k] {
      assert steps[k].id in Ids(steps);
    }
  }

  /** A patch without an id key (or with the target's own id) keeps every position's id. */
  lemma UpdateKeepsIds(steps: seq<Step>, id: int, patch: Patch)
    requires patch.id.None? || patch.id == Some(id)
    ensures forall k :: 0 <= k < |steps| ==> Update(steps, id, patch)[k].id == steps[k].id
    ensures DistinctIds(steps) ==> DistinctIds(Update(steps, id, patch))
  {
  }

  /** The application shell's state: the collection and the index that Timeline drives. */
  datatype Shell = Shell(steps: seq<Step>, currentStep: nat, previewMode: bool)

  function InitialShell(): (a: Shell)
    ensures a.steps == InitialSteps() && a.currentStep == 0 && !a.previewMode
  {
    Shell(InitialSteps(), 0, false)
  }

  /** deleteStep as seen by the shell: only the collection changes. */
  function ShellDelete(a: Shell, id: int): (r: Shell)
    ensures r.currentStep == a.currentStep && r.previewMode == a.previewMode
    ensures r.steps == Delete(a.steps, id)
  {
    a.(steps := Delete(a.steps, id))
  }

  /** updateStep as seen by the shell: only the collection changes. */
  function ShellUpdate(a: Shell, id: int, patch: Patch): (r: Shell)
    ensures r.currentStep == a.currentStep && r.previewMode == a.previewMode
    ensures r.steps == Update(a.steps, id, patch)
  {
    a.(steps := Update(a.steps, id, patch))
  }

  /** Nothing clamps the index: on the last initial step, deleting that step leaves it past the end. */
  lemma DeleteDoesNotClamp()
    ensures var a := ShellDelete(InitialShell().(currentStep := 2), 3);
            |a.steps| == 2 && a.currentStep == 2 && a.currentStep >= |a.steps|
  {
    var s := InitialSteps();
    assert s == [s[0]] + ([s[1]] + ([s[2]] + []));
    DeleteAppend([s[0]], [s[1]] + [s[2]], 3);
    DeleteAppend([s[1]], [s[2]], 3);
    assert [s[0]][1..] == [] && [s[1]][1..] == [] && [s[2]][1..] == [];
  }
}
