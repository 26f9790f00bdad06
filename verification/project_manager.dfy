// utils/projectManager.ts: creating a project, summarising it, replacing
// its contents, and converting furniture saved in the old coordinate
// system. Ids and timestamps come from the caller.

module ProjectManager {
  import opened Types
  import opened JsString

  const DefaultProjectName: string := "新しいプロジェクト"
  const ProjectVersion: string := "1.0.0"

  /** `createNewProject`: an empty project named by the trimmed input, or
      by the default name when nothing but white space was given; both
      timestamps are the same instant. */
  function CreateNewProject(id: string, name: string, now: string): (p: Project)
    ensures p.id == id && p.rooms == [] && p.furniture == [] && p.version == ProjectVersion
    ensures p.createdAt == now && p.updatedAt == now
    ensures AllSpace(name) ==> p.name == DefaultProjectName
    ensures !AllSpace(name) ==> p.name == Trim(name) && p.name != []
    ensures p.name != []
  {
    var trimmed := Trim(name);
    Project(id, if trimmed == [] then DefaultProjectName else trimmed, [], [], now, now, ProjectVersion)
  }

  /** `getProjectMetadata`: the project's identity and timestamps with the
      sizes of its two lists. */
  function GetProjectMetadata(project: Project): (m: ProjectMetadata)
    ensures m.id == project.id && m.name == project.name
    ensures m.createdAt == project.createdAt && m.updatedAt == project.updatedAt
    ensures m.roomCount == |project.rooms| && m.furnitureCount == |project.furniture|
  {
    ProjectMetadata(project.id, project.name, project.createdAt, project.updatedAt,
                    |project.rooms|, |project.furniture|)
  }

  /** `updateProject`: new contents and a new update time; the identity,
      name, creation time and version are kept. */
  function UpdateProject(project: Project, rooms: seq<Room>, furniture: seq<Furniture>, now: string): (p: Project)
    ensures p.rooms == rooms && p.furniture == furniture && p.updatedAt == now
    ensures p.id == project.id && p.name == project.name
    ensures p.createdAt == project.createdAt && p.version == project.version
  {
    project.(rooms := rooms, furniture := furniture, updatedAt := now)
  }

  /** One item of `convertLegacyFurniture`: a negative `z` is mirrored to
      the positive side, anything else is left alone. */
  function ConvertLegacyItem(item: Furniture): (r: Furniture)
    ensures r.position.z >= 0.0
    ensures item.position.z >= 0.0 ==> r == item
    ensures item.position.z < 0.0 ==> r == item.(position := item.position.(z := -item.position.z))
  {
    if item.position.z < 0.0 then item.(position := item.position.(z := -item.position.z))
    else item
  }

  /** `convertLegacyFurniture`: the item-by-item conversion, in order. */
  function ConvertLegacyFurniture(furniture: seq<Furniture>): (r: seq<Furniture>)
    ensures |r| == |furniture|
    ensures forall k :: 0 <= k < |r| ==> r[k].position.z >= 0.0
    ensures forall k :: 0 <= k < |r| ==>
      r[k].id == furniture[k].id && r[k].position.x == furniture[k].position.x
      && r[k].position.y == furniture[k].position.y
      && (r[k].position.z == furniture[k].position.z || r[k].position.z == -furniture[k].position.z)
  {
    seq(|furniture|, k requires 0 <= k < |furniture| => ConvertLegacyItem(furniture[k]))
  }

  /** Exactly the items with a negative `z` change, and only in their `z`. */
  lemma ConvertLegacyChangesOnlyNegative(furniture: seq<Furniture>, k: nat)
    requires k < |furniture|
    ensures var r := ConvertLegacyFurniture(furniture);
      (r[k] != furniture[k] <==> furniture[k].position.z < 0.0)
      && r[k] == furniture[k].(position := furniture[k].position.(z := r[k].position.z))
  {
    var r := ConvertLegacyFurniture(furniture);
    assert r[k] == ConvertLegacyItem(furniture[k]);
  }

  /** Converting twice is converting once. */
  lemma ConvertLegacyIdempotent(furniture: seq<Furniture>)
    ensures ConvertLegacyFurniture(ConvertLegacyFurniture(furniture)) == ConvertLegacyFurniture(furniture)
  {
    var once := ConvertLegacyFurniture(furniture);
    var twice := ConvertLegacyFurniture(once);
    forall k | 0 <= k < |once| ensures twice[k] == once[k] {
      assert once[k] == ConvertLegacyItem(furniture[k]);
      assert twice[k] == ConvertLegacyItem(once[k]);
    }
  }

  /** Data already in the new coordinate system passes through unchanged. */
  lemma ConvertLegacyKeepsNewData(furniture: seq<Furniture>)
    requires forall k :: 0 <= k < |furniture| ==> furniture[k].position.z >= 0.0
    ensures ConvertLegacyFurniture(furniture) == furniture
  {
    var r := ConvertLegacyFurniture(furniture);
    forall k | 0 <= k < |r| ensures r[k] == furniture[k] {
      assert r[k] == ConvertLegacyItem(furniture[k]);
    }
  }
}
