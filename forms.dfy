/** The zod form schemas of src/lib/schemas/forms.ts, as issue lists.

    A schema accepts its input exactly when it reports no issue.  Lengths are
    counted in characters; `z.string().uuid()` is the parameter `isUuid`, and
    the members of `AddBlockLocationDto` are the parameter `locations`. */
module Forms {
  import opened Wrappers

  /** One validation failure: the field it concerns and the message the schema gives,
      or None where zod's built-in message applies. */
  datatype Issue = Issue(field: string, message: Option<string>)

  const ProjectNameRequired: string := "Project name is required"
  const ProjectNameTooLong: string := "Project name must be 32 characters or less"
  const BlockNameRequired: string := "Block name is required"
  const BlockNameTooLong: string := "Block name must be 100 characters or less"
  /** The message says 500 while the limit the schema enforces is 1000. */
  const DescriptionTooLong: string := "Description must be 500 characters or less"
  const InvalidAlternativeId: string := "Invalid alternative ID format"

  const MaxProjectName: nat := 32
  const MaxBlockName: nat := 100
  const MaxDescription: nat := 1000

  /** `z.string().min(lo, minMessage).max(hi, maxMessage)` on one field; both bounds are
      inclusive, and both checks run. */
  function LengthIssues(field: string, value: string, lo: nat, minMessage: string, hi: nat, maxMessage: string)
    : (issues: seq<Issue>)
    ensures |issues| == 0 <==> lo <= |value| <= hi
    ensures forall i | 0 <= i < |issues| :: issues[i].field == field
    ensures |value| < lo ==> Issue(field, Some(minMessage)) in issues
    ensures |value| > hi ==> Issue(field, Some(maxMessage)) in issues
  {
    (if |value| < lo then [Issue(field, Some(minMessage))] else [])
    + (if |value| > hi then [Issue(field, Some(maxMessage))] else [])
  }

  /** `z.string().max(1000, ...).optional()`: an absent description is accepted. */
  function DescriptionIssues(description: Option<string>): (issues: seq<Issue>)
    ensures |issues| == 0 <==> description.None? || |description.value| <= MaxDescription
    ensures |issues| > 0 ==> issues == [Issue("description", Some(DescriptionTooLong))]
  {
    match description
    case None => []
    case Some(d) => if |d| > MaxDescription then [Issue("description", Some(DescriptionTooLong))] else []
  }

  datatype CreateProjectForm = CreateProjectForm(name: string, mediaType: string)

  /** `createProjectSchema` */
  function CreateProjectIssues(form: CreateProjectForm): (issues: seq<Issue>)
    ensures |issues| == 0 <==> 1 <= |form.name| <= MaxProjectName && (form.mediaType == "audio" || form.mediaType == "video")
    ensures form.name == [] ==> Issue("name", Some(ProjectNameRequired)) in issues
    ensures |form.name| > MaxProjectName ==> Issue("name", Some(ProjectNameTooLong)) in issues
  {
    LengthIssues("name", form.name, 1, ProjectNameRequired, MaxProjectName, ProjectNameTooLong)
    + (if form.mediaType == "audio" || form.mediaType == "video" then [] else [Issue("mediaType", None)])
  }

  datatype AlternativeMetaUpdate = AlternativeMetaUpdate(name: string, description: Option<string>)

  /** `alternativeMetaUpdateSchema` */
  function AlternativeMetaIssues(form: AlternativeMetaUpdate): (issues: seq<Issue>)
    ensures |issues| == 0 <==> 1 <= |form.name| <= MaxBlockName && (form.description.None? || |form.description.value| <= MaxDescription)
  {
    LengthIssues("name", form.name, 1, BlockNameRequired, MaxBlockName, BlockNameTooLong)
    + DescriptionIssues(form.description)
  }

  datatype BlockMetaUpdate = BlockMetaUpdate(name: string, description: Option<string>, alternativeId: string)

  /** `blockMetaUpdateSchema` */
  function BlockMetaIssues(isUuid: string -> bool, form: BlockMetaUpdate): (issues: seq<Issue>)
    ensures |issues| == 0 <==>
      && 1 <= |form.name| <= MaxBlockName
      && (form.description.None? || |form.description.value| <= MaxDescription)
      && isUuid(form.alternativeId)
  {
    LengthIssues("name", form.name, 1, BlockNameRequired, MaxBlockName, BlockNameTooLong)
    + DescriptionIssues(form.description)
    + (if isUuid(form.alternativeId) then [] else [Issue("alternativeId", Some(InvalidAlternativeId))])
  }

  /** The block update checks the name and description exactly as the alternative update
      does; it only adds the alternative id. */
  lemma BlockMetaExtendsAlternativeMeta(isUuid: string -> bool, form: BlockMetaUpdate)
    ensures var alt := AlternativeMetaIssues(AlternativeMetaUpdate(form.name, form.description));
            var issues := BlockMetaIssues(isUuid, form);
            && issues[..|alt|] == alt
            && (forall i | |alt| <= i < |issues| :: issues[i] == Issue("alternativeId", Some(InvalidAlternativeId)))
            && (isUuid(form.alternativeId) <==> |issues| == |alt|)
  {
  }

  datatype BlockAdd = BlockAdd(location: string)

  /** `blockAddSchema`: the location must be one of the enum's values. */
  function BlockAddIssues(locations: set<string>, form: BlockAdd): (issues: seq<Issue>)
    ensures |issues| == 0 <==> form.location in locations
  {
    if form.location in locations then [] else [Issue("location", None)]
  }

  datatype BlockMove = BlockMove(blockId: string, newIndex: real)

  /** `blockMoveSchema`: any block id, and any number from 0 up, integral or not. */
  function BlockMoveIssues(form: BlockMove): (issues: seq<Issue>)
    ensures |issues| == 0 <==> form.newIndex >= 0.0
  {
    if form.newIndex < 0.0 then [Issue("newIndex", None)] else []
  }
}
