/**
 * The project showcase of the v1 page (v1/script.js): its own image path resolver and the
 * per-project image cursor, a dictionary from project id to image index that `renderProjects`
 * resets and the gallery buttons step.
 */
module V1Site {
  import opened Wrappers
  import opened Strings
  import Carousel
  import Site
  import opened Bundles

  /** v1's `getImagePath`: like the shared one but with a fixed `/images/` folder. */
  function GetImagePath(name: string): (r: string)
    ensures Site.IsAbsoluteImage(r)
    ensures Site.IsAbsoluteImage(name) ==> r == name
    ensures !Site.IsAbsoluteImage(name) && Contains(name, "public/") ==> r == "/" + name
    ensures !Site.IsAbsoluteImage(name) && !Contains(name, "public/") ==> r == "/images/" + name
  {
    if StartsWith(name, "/") || StartsWith(name, "http") then name
    else if Contains(name, "public/") then "/" + name
    else "/images/" + name
  }

  /** The two resolvers agree exactly on names that are absolute or under `public/`. */
  lemma AgreesWithSharedResolver(name: string, pagePath: string)
    ensures GetImagePath(name) == Site.GetImagePath(name, pagePath) <==>
      (Site.IsAbsoluteImage(name) || Contains(name, "public/"))
  {
    if !Site.IsAbsoluteImage(name) && !Contains(name, "public/") {
      var v := Site.PageVersion(pagePath);
      assert Site.GetImagePath(name, pagePath)[1] == v[0];
      assert GetImagePath(name)[1] == 'i';
    }
  }

  /** `projectOrder`: project id `k` (from 1) shows the `k`-th of these projects. */
  const ProjectOrder: seq<string> := ["vise", "juego", "formSena", "lisa"]

  /** `projectOrder[projectId - 1]`, missing outside the order. */
  function ProjectKey(id: int): (key: Option<string>)
    ensures key.Some? <==> 1 <= id <= |ProjectOrder|
    ensures key.Some? ==> key.value == ProjectOrder[id - 1]
  {
    if 1 <= id <= |ProjectOrder| then Some(ProjectOrder[id - 1]) else None
  }

  /** `projectsData[projectOrder[projectId - 1]]`. */
  function ProjectOf(data: map<string, Project>, id: int): Option<Project> {
    var key := ProjectKey(id);
    if key.Some? && key.value in data then Some(data[key.value]) else None
  }

  /**
   * Rendering the project under `key` throws: its template reads `images[0]`, and
   * `getImagePath(undefined)` fails on `startsWith`. `loadProjects` catches the error, so the
   * rest of the order is not rendered.
   */
  predicate Throws(data: map<string, Project>, key: string) {
    key in data && data[key].images == []
  }

  /** The steps of `renderProjects`' loop that run from step `k` on: up to the first that throws. */
  function StepsFrom(data: map<string, Project>, k: nat): (n: nat)
    requires k < |ProjectOrder|
    ensures k < n <= |ProjectOrder|
    ensures forall j :: k <= j < n - 1 ==> !Throws(data, ProjectOrder[j])
    ensures n < |ProjectOrder| ==> Throws(data, ProjectOrder[n - 1])
    decreases |ProjectOrder| - k
  {
    if k == |ProjectOrder| - 1 || Throws(data, ProjectOrder[k]) then k + 1
    else StepsFrom(data, k + 1)
  }

  /**
   * The number of steps of `renderProjects`' loop that run: every step when no project throws,
   * otherwise the steps up to and including the first project that throws.
   */
  function Steps(data: map<string, Project>): (n: nat)
    ensures 1 <= n <= |ProjectOrder|
    ensures forall j :: 0 <= j < n - 1 ==> !Throws(data, ProjectOrder[j])
    ensures n < |ProjectOrder| ==> Throws(data, ProjectOrder[n - 1])
  {
    StepsFrom(data, 0)
  }

  /** Those two facts pin the number of steps down. */
  lemma StepsUnique(data: map<string, Project>, n: nat)
    requires 1 <= n <= |ProjectOrder|
    requires forall j :: 0 <= j < n - 1 ==> !Throws(data, ProjectOrder[j])
    requires n < |ProjectOrder| ==> Throws(data, ProjectOrder[n - 1])
    ensures n == Steps(data)
  {
    var m := Steps(data);
    var last, other := ProjectOrder[n - 1], ProjectOrder[m - 1];
    assert n < m ==> !Throws(data, last);
    assert m < n ==> !Throws(data, other);
  }

  /** Project `id` is rendered: it is loaded and the loop reaches its step. */
  predicate Rendered(data: map<string, Project>, id: int) {
    1 <= id <= Steps(data) && ProjectOf(data, id).Some?
  }

  /** Every rendered project has an image index. */
  predicate Indexed(data: map<string, Project>, index: map<int, nat>) {
    forall id :: 1 <= id <= Steps(data) && ProjectOf(data, id).Some? ==> id in index
  }

  /** The dictionary after the first `n` steps of `renderProjects`' loop over the order. */
  function ResetIndexes(index: map<int, nat>, data: map<string, Project>, n: nat): map<int, nat>
    requires n <= |ProjectOrder|
  {
    if n == 0 then index
    else
      var before := ResetIndexes(index, data, n - 1);
      if ProjectOrder[n - 1] in data then before[n := 0] else before
  }

  /** After `n` steps, the first `n` loaded projects sit at image 0 and no other entry has changed. */
  lemma {:induction false} ResetIndexesSpec(index: map<int, nat>, data: map<string, Project>, n: nat)
    requires n <= |ProjectOrder|
    ensures forall id :: 1 <= id <= n && ProjectOrder[id - 1] in data ==>
      id in ResetIndexes(index, data, n) && ResetIndexes(index, data, n)[id] == 0
    ensures forall id :: !(1 <= id <= n && ProjectOrder[id - 1] in data) ==>
      (id in ResetIndexes(index, data, n) <==> id in index) &&
      (id in index ==> ResetIndexes(index, data, n)[id] == index[id])
  {
    if n > 0 {
      ResetIndexesSpec(index, data, n - 1);
    }
  }

  /**
   * `renderProjects` leaves every rendered project at its first image, so indexed, and the
   * projects after the one that throws keep the entries they had.
   */
  lemma RenderIndexesAll(index: map<int, nat>, data: map<string, Project>)
    ensures Indexed(data, ResetIndexes(index, data, Steps(data)))
    ensures forall id :: Rendered(data, id) ==> ResetIndexes(index, data, Steps(data))[id] == 0
    ensures forall id :: Steps(data) < id ==>
      (id in ResetIndexes(index, data, Steps(data)) <==> id in index) &&
      (id in index ==> ResetIndexes(index, data, Steps(data))[id] == index[id])
  {
    ResetIndexesSpec(index, data, Steps(data));
  }

  /** A loaded project without images ends the rendering: no later project gets an index. */
  lemma RenderStopsAtEmptyGallery(index: map<int, nat>, data: map<string, Project>, k: nat)
    requires k < |ProjectOrder| && Throws(data, ProjectOrder[k])
    ensures Steps(data) <= k + 1
    ensures forall id :: k + 1 < id ==>
      !Rendered(data, id) && (id in ResetIndexes(index, data, Steps(data)) <==> id in index)
  {
    RenderIndexesAll(index, data);
  }

  /** When every loaded project has images, the whole order is rendered and every loaded project is at image 0. */
  lemma RenderAllWithImages(index: map<int, nat>, data: map<string, Project>)
    requires forall key :: key in data ==> data[key].images != []
    ensures Steps(data) == |ProjectOrder|
    ensures forall id :: ProjectOf(data, id).Some? ==>
      Rendered(data, id) && id in ResetIndexes(index, data, |ProjectOrder|) &&
      ResetIndexes(index, data, |ProjectOrder|)[id] == 0
  {
    StepsUnique(data, |ProjectOrder|);
    RenderIndexesAll(index, data);
  }

  /** `nextProjectImage(projectId)` on the dictionary; a missing project, or one without images, changes nothing. */
  function NextIndex(data: map<string, Project>, index: map<int, nat>, id: int): map<int, nat> {
    match ProjectOf(data, id)
    case Some(p) =>
      if |p.images| > 0 && id in index then index[id := Carousel.Next(index[id], |p.images|)] else index
    case None => index
  }

  /** `prevProjectImage(projectId)` on the dictionary. */
  function PrevIndex(data: map<string, Project>, index: map<int, nat>, id: int): map<int, nat> {
    match ProjectOf(data, id)
    case Some(p) =>
      if |p.images| > 0 && id in index then index[id := Carousel.Prev(index[id], |p.images|)] else index
    case None => index
  }

  /** Stepping a rendered project moves only its own index, and keeps it among its images. */
  lemma StepMovesOneProject(data: map<string, Project>, index: map<int, nat>, id: int)
    requires id in index
    requires ProjectOf(data, id).Some? && |ProjectOf(data, id).value.images| > 0
    ensures var n := |ProjectOf(data, id).value.images|;
      NextIndex(data, index, id) == index[id := Carousel.Next(index[id], n)] &&
      PrevIndex(data, index, id) == index[id := Carousel.Prev(index[id], n)] &&
      NextIndex(data, index, id)[id] < n && PrevIndex(data, index, id)[id] < n
  {
  }

  /** Next and then previous on a rendered project, at a valid image, returns to that image. */
  lemma PrevUndoesNext(data: map<string, Project>, index: map<int, nat>, id: int)
    requires ProjectOf(data, id).Some? && id in index && index[id] < |ProjectOf(data, id).value.images|
    ensures PrevIndex(data, NextIndex(data, index, id), id) == index
    ensures NextIndex(data, PrevIndex(data, index, id), id) == index
  {
    var n := |ProjectOf(data, id).value.images|;
    Carousel.PrevAfterNext(index[id], n);
    Carousel.NextAfterPrev(index[id], n);
  }

  /** An id that shows no loaded project is never stepped. */
  lemma StepIgnoresUnknownProject(data: map<string, Project>, index: map<int, nat>, id: int)
    requires ProjectOf(data, id).None?
    ensures NextIndex(data, index, id) == index && PrevIndex(data, index, id) == index
  {
  }

  /** The dictionaries of the v1 page: `projectsData` and `currentImageIndex`. */
  class Showcase {
    var projectsData: map<string, Project>
    var currentImageIndex: map<int, nat>

    predicate Valid()
      reads this
    {
      Indexed(projectsData, currentImageIndex)
    }

    constructor()
      ensures Valid()
      ensures projectsData == map[] && currentImageIndex == map[]
    {
      projectsData := map[];
      currentImageIndex := map[];
    }

    /**
     * `loadProjects` once the file is fetched: `section` is `data[lang]` (missing when the fetch
     * failed or the language has no entry, and then nothing changes).
     */
    method LoadProjects(section: Option<map<string, Project>>)
      requires Valid()
      modifies this
      ensures Valid()
      ensures section.None? ==> projectsData == old(projectsData) && currentImageIndex == old(currentImageIndex)
      ensures section.Some? ==>
        projectsData == section.value &&
        currentImageIndex == ResetIndexes(old(currentImageIndex), section.value, Steps(section.value))
    {
      if section.Some? {
        projectsData := section.value;
        RenderProjects();
      }
    }

    /**
     * The index bookkeeping of `renderProjects`: each loaded project of the order goes to image
     * 0, until a project without images throws after its own reset.
     */
    method RenderProjects()
      modifies this
      ensures Valid()
      ensures projectsData == old(projectsData)
      ensures currentImageIndex == ResetIndexes(old(currentImageIndex), projectsData, Steps(projectsData))
    {
      var i := 0;
      var thrown := false;
      while i < |ProjectOrder| && !thrown
        invariant 0 <= i <= |ProjectOrder|
        invariant projectsData == old(projectsData)
        invariant currentImageIndex == ResetIndexes(old(currentImageIndex), projectsData, i)
        invariant thrown ==> 1 <= i && Throws(projectsData, ProjectOrder[i - 1])
        invariant forall j :: 0 <= j < (if thrown then i - 1 else i) ==> !Throws(projectsData, ProjectOrder[j])
      {
        var key := ProjectOrder[i];
        if key in projectsData {
          currentImageIndex := currentImageIndex[i + 1 := 0];
          thrown := projectsData[key].images == [];
        }
        i := i + 1;
      }
      StepsUnique(projectsData, i);
      RenderIndexesAll(old(currentImageIndex), projectsData);
    }

    /** `nextProjectImage(projectId)`. */
    method NextProjectImage(id: int)
      requires Valid()
      modifies this
      ensures Valid()
      ensures projectsData == old(projectsData)
      ensures currentImageIndex == NextIndex(projectsData, old(currentImageIndex), id)
    {
      var project := ProjectOf(projectsData, id);
      if project.Some? && |project.value.images| > 0 && id in currentImageIndex {
        var total := |project.value.images|;
        currentImageIndex := currentImageIndex[id := (currentImageIndex[id] + 1) % total];
      }
    }

    /** `prevProjectImage(projectId)`. */
    method PrevProjectImage(id: int)
      requires Valid()
      modifies this
      ensures Valid()
      ensures projectsData == old(projectsData)
      ensures currentImageIndex == PrevIndex(projectsData, old(currentImageIndex), id)
    {
      var project := ProjectOf(projectsData, id);
      if project.Some? && |project.value.images| > 0 && id in currentImageIndex {
        var total := |project.value.images|;
        currentImageIndex := currentImageIndex[id := (currentImageIndex[id] - 1 + total) % total];
      }
    }

    /** `goToImage(projectId, index)`: sets that one entry, whatever the id. */
    method GoToImage(id: int, index: nat)
      requires Valid()
      modifies this
      ensures Valid()
      ensures projectsData == old(projectsData)
      ensures currentImageIndex == old(currentImageIndex)[id := index]
      ensures forall other :: other != id ==>
        (other in currentImageIndex <==> other in old(currentImageIndex)) &&
        (other in currentImageIndex ==> currentImageIndex[other] == old(currentImageIndex)[other])
    {
      currentImageIndex := currentImageIndex[id := index];
    }
  }
}
