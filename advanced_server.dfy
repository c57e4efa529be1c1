/** advanced-server.js: the construction project registry and its notification
    engine. `PROJECTS` maps a project id to its record and `NOTIFICATIONS` is an
    append-only log of WhatsApp updates. Sending an update, scheduling an
    inspection and tracking progress all fail on an unknown project before they
    change anything; scheduling an inspection always logs one `medium` update and
    tracking progress logs one `low` update exactly at positive multiples of 25. */
module AdvancedServer {
  import opened Wrappers
  import opened Text

  datatype Urgency = Low | Medium | High
  datatype Phase = Planning | Excavation | Foundation | Structure | Finishing
  datatype InspectionKind = FoundationCheck | StructureCheck | ElectricalCheck | PlumbingCheck

  /** The status every project is created with; nothing changes it afterwards. */
  const InitialStatus: string := "planning"
  /** The inspector named in the reminder when none is given. */
  const NoInspector: string := "TBD"
  /** The notes named in a milestone update when none are given. */
  const NoNotes: string := "On track"

  /** A project record. `created` and `lastUpdate` are the instants of the calls
      that set them; `phase` and `lastUpdate` are absent until progress is tracked. */
  datatype Project = Project(
    id: string,
    name: string,
    location: string,
    timeline: Option<string>,
    budget: Option<real>,
    contact: string,
    created: nat,
    status: string,
    progress: int,
    phase: Option<Phase>,
    lastUpdate: Option<nat>)

  /** The caller's part of an update: free text, or one of the two templates. */
  datatype Body =
    | Note(text: string)
    | InspectionReminder(kind: InspectionKind, date: string, inspector: string)
    | MilestoneReached(phase: Phase, completion: int, notes: string)

  /** A logged update: recipient, the project named in its header, body, urgency and instant. */
  datatype Notification = Notification(to: string, projectName: string, body: Body, urgency: Urgency, timestamp: nat)

  /** What a tool reports, without its text formatting. */
  datatype Reply =
    | Created(id: string, name: string, location: string, contact: string)
    | UpdateSent(to: string, body: Body, urgency: Urgency)
    | InspectionScheduled(kind: InspectionKind, date: string, inspector: Option<string>)
    | ProgressUpdated(completion: int, phase: Phase, notes: Option<string>, milestoneAnnounced: bool)
    | NotModelled(tool: string)

  /** The errors a tool call throws. */
  datatype Error = UnknownTool(name: string) | ProjectNotFound(id: string)

  /** The tools of this server; the calculators, the weather check and the
      compliance check are not part of this model. */
  datatype Tool = Calculate | Estimate | Create | Update | Inspect | Track | Weather | Compliance

  /** The (schema-validated) arguments of a tool call; each tool reads its own. */
  datatype Args = Args(
    name: string,
    location: string,
    contact: string,
    timeline: Option<string>,
    budget: Option<real>,
    projectId: string,
    message: string,
    urgency: Option<Urgency>,
    inspectionType: InspectionKind,
    date: string,
    inspector: Option<string>,
    phase: Phase,
    completion: int,
    notes: Option<string>)

  /** The name a tool is registered under. */
  function ToolName(t: Tool): string {
    match t
    case Calculate => "calculate_materials"
    case Estimate => "estimate_cost"
    case Create => "create_project"
    case Update => "send_whatsapp_update"
    case Inspect => "schedule_inspection"
    case Track => "track_progress"
    case Weather => "weather_impact"
    case Compliance => "compliance_check"
  }

  /** The `switch` on the requested tool name. */
  function Route(name: string): (r: Result<Tool, Error>)
    ensures r.Success? ==> ToolName(r.value) == name
    ensures r.Failure? ==> r.error == UnknownTool(name)
    ensures r.Failure? <==> forall t: Tool :: ToolName(t) != name
  {
    if name == "calculate_materials" then Success(Calculate)
    else if name == "estimate_cost" then Success(Estimate)
    else if name == "create_project" then Success(Create)
    else if name == "send_whatsapp_update" then Success(Update)
    else if name == "schedule_inspection" then Success(Inspect)
    else if name == "track_progress" then Success(Track)
    else if name == "weather_impact" then Success(Weather)
    else if name == "compliance_check" then Success(Compliance)
    else Failure(UnknownTool(name))
  }

  /** `proj_${Date.now()}` for the instant `now` in milliseconds. */
  function ProjectId(now: nat): (r: string)
    ensures |r| > 5 && r[..5] == "proj_"
    ensures forall i :: 5 <= i < |r| ==> '0' <= r[i] <= '9'
  {
    "proj_" + Decimal(now)
  }

  /** Projects created at different instants get different ids; only two
      creations in the same millisecond collide. */
  lemma ProjectIdsDistinct(a: nat, b: nat)
    requires a != b
    ensures ProjectId(a) != ProjectId(b)
  {
    if ProjectId(a) == ProjectId(b) {
      assert ProjectId(a)[5..] == Decimal(a);
      assert ProjectId(b)[5..] == Decimal(b);
      DecimalInjective(a, b);
    }
  }

  /** A freshly created record: planning status, zero progress, no phase yet. */
  function NewProject(id: string, name: string, location: string, timeline: Option<string>,
                      budget: Option<real>, contact: string, now: nat): (p: Project)
    ensures p.id == id && p.name == name && p.location == location && p.contact == contact
    ensures p.status == InitialStatus && p.progress == 0 && p.phase.None? && p.lastUpdate.None?
  {
    Project(id, name, location, timeline, budget, contact, now, InitialStatus, 0, None, None)
  }

  /** The record after `trackProgress`: new phase, progress and update instant. */
  function Tracked(p: Project, phase: Phase, completion: int, now: nat): (q: Project)
    ensures q.phase == Some(phase) && q.progress == completion && q.lastUpdate == Some(now)
    ensures q.(phase := p.phase, progress := p.progress, lastUpdate := p.lastUpdate) == p
  {
    p.(phase := Some(phase), progress := completion, lastUpdate := Some(now))
  }

  /** The automatic milestone rule: `completion % 25 === 0 && completion > 0`. */
  predicate IsMilestone(completion: int) {
    completion % 25 == 0 && completion > 0
  }

  /** The reply's milestone line: `completion % 25 === 0`, zero included. */
  predicate AnnouncesMilestone(completion: int) {
    completion % 25 == 0
  }

  /** Within 0..100 the milestones are exactly 25, 50, 75 and 100. */
  lemma MilestoneValues(completion: int)
    requires 0 <= completion <= 100
    ensures IsMilestone(completion) <==> completion in {25, 50, 75, 100}
  {
    if IsMilestone(completion) {
      var q := completion / 25;
      assert completion == 25 * q;
      assert 1 <= q <= 4;
    }
  }

  /** The reply announces a milestone without one being logged exactly at the
      non-positive multiples of 25, zero among them. */
  lemma AnnouncedButNotLogged(completion: int)
    ensures AnnouncesMilestone(completion) && !IsMilestone(completion) <==>
            completion % 25 == 0 && completion <= 0
  {
  }

  /** The notification `sendWhatsAppUpdate` logs for project `p`. */
  function Notice(p: Project, body: Body, urgency: Urgency, now: nat): (n: Notification)
    ensures n.to == p.contact && n.projectName == p.name
  {
    Notification(p.contact, p.name, body, urgency, now)
  }

  /** The `PROJECTS` map and the `NOTIFICATIONS` log. */
  class Registry {
    var projects: map<string, Project>
    var notifications: seq<Notification>

    /** Every record is stored under its own id and is still in planning status. */
    ghost predicate Valid()
      reads this
    {
      forall id :: id in projects ==> projects[id].id == id && projects[id].status == InitialStatus
    }

    /** Both start empty. */
    constructor()
      ensures Valid()
      ensures projects == map[] && notifications == []
    {
      projects := map[];
      notifications := [];
    }

    /** `createProject`: store a new record under `proj_<now>`, overwriting any
        record created in the same millisecond. */
    method CreateProject(name: string, location: string, contact: string, timeline: Option<string>,
                         budget: Option<real>, now: nat) returns (r: Reply)
      requires Valid()
      modifies this`projects
      ensures Valid()
      ensures projects == old(projects)[ProjectId(now) := NewProject(ProjectId(now), name, location, timeline, budget, contact, now)]
      ensures r == Created(ProjectId(now), name, location, contact)
    {
      var id := ProjectId(now);
      projects := projects[id := NewProject(id, name, location, timeline, budget, contact, now)];
      r := Created(id, name, location, contact);
    }

    /** `sendWhatsAppUpdate`: log one update to the project's contact; urgency
        defaults to `medium`. */
    method SendWhatsAppUpdate(projectId: string, body: Body, urgency: Option<Urgency>, now: nat)
      returns (r: Result<Reply, Error>)
      requires Valid()
      modifies this`notifications
      ensures Valid()
      ensures projectId !in projects ==>
                r == Failure(ProjectNotFound(projectId)) && notifications == old(notifications)
      ensures projectId in projects ==>
                var p := projects[projectId];
                var u := urgency.GetOr(Medium);
                && notifications == old(notifications) + [Notice(p, body, u, now)]
                && r == Success(UpdateSent(p.contact, body, u))
    {
      if projectId !in projects {
        return Failure(ProjectNotFound(projectId));
      }
      var p := projects[projectId];
      var u := urgency.GetOr(Medium);
      notifications := notifications + [Notice(p, body, u, now)];
      r := Success(UpdateSent(p.contact, body, u));
    }

    /** `scheduleInspection`: log one `medium` reminder; the inspection itself is not kept. */
    method ScheduleInspection(projectId: string, kind: InspectionKind, date: string,
                              inspector: Option<string>, now: nat) returns (r: Result<Reply, Error>)
      requires Valid()
      modifies this`notifications
      ensures Valid()
      ensures projectId !in projects ==>
                r == Failure(ProjectNotFound(projectId)) && notifications == old(notifications)
      ensures projectId in projects ==>
                var reminder := InspectionReminder(kind, date, OrElse(inspector, NoInspector));
                && notifications == old(notifications) + [Notice(projects[projectId], reminder, Medium, now)]
                && r == Success(InspectionScheduled(kind, date, inspector))
    {
      if projectId !in projects {
        return Failure(ProjectNotFound(projectId));
      }
      var reminder := InspectionReminder(kind, date, OrElse(inspector, NoInspector));
      var _ := SendWhatsAppUpdate(projectId, reminder, Some(Medium), now);
      r := Success(InspectionScheduled(kind, date, inspector));
    }

    /** `trackProgress`: overwrite the phase and progress of one project, and log
        a `low` milestone update when the rule fires. */
    method TrackProgress(projectId: string, phase: Phase, completion: int, notes: Option<string>, now: nat)
      returns (r: Result<Reply, Error>)
      requires Valid()
      modifies this
      ensures Valid()
      ensures projectId !in old(projects) ==>
                && r == Failure(ProjectNotFound(projectId))
                && projects == old(projects) && notifications == old(notifications)
      ensures projectId in old(projects) ==>
                var p := old(projects)[projectId];
                var milestone := MilestoneReached(phase, completion, OrElse(notes, NoNotes));
                && projects == old(projects)[projectId := Tracked(p, phase, completion, now)]
                && notifications == old(notifications)
                     + (if IsMilestone(completion) then [Notice(p, milestone, Low, now)] else [])
                && r == Success(ProgressUpdated(completion, phase, notes, AnnouncesMilestone(completion)))
    {
      if projectId !in projects {
        return Failure(ProjectNotFound(projectId));
      }
      projects := projects[projectId := Tracked(projects[projectId], phase, completion, now)];
      if IsMilestone(completion) {
        var milestone := MilestoneReached(phase, completion, OrElse(notes, NoNotes));
        var _ := SendWhatsAppUpdate(projectId, milestone, Some(Low), now);
      }
      r := Success(ProgressUpdated(completion, phase, notes, AnnouncesMilestone(completion)));
    }

    /** The `CallToolRequestSchema` handler: route by name and run the handler;
        `now` is the instant of the call. */
    method Call(name: string, args: Args, now: nat) returns (r: Result<Reply, Error>)
      requires Valid()
      modifies this
      ensures Valid()
      ensures old(notifications) <= notifications
      ensures Route(name).Failure? ==>
                r == Failure(UnknownTool(name)) && projects == old(projects) && notifications == old(notifications)
      ensures Route(name) in {Success(Calculate), Success(Estimate), Success(Weather), Success(Compliance)} ==>
                r == Success(NotModelled(name)) && projects == old(projects) && notifications == old(notifications)
      ensures Route(name) == Success(Create) ==>
                && r == Success(Created(ProjectId(now), args.name, args.location, args.contact))
                && projects == old(projects)[ProjectId(now) := NewProject(ProjectId(now), args.name, args.location,
                                                                        args.timeline, args.budget, args.contact, now)]
                && notifications == old(notifications)
      ensures Route(name) == Success(Update) && args.projectId in old(projects) ==>
                var p := old(projects)[args.projectId];
                var u := args.urgency.GetOr(Medium);
                && notifications == old(notifications) + [Notice(p, Note(args.message), u, now)]
                && r == Success(UpdateSent(p.contact, Note(args.message), u))
      ensures Route(name) == Success(Inspect) && args.projectId in old(projects) ==>
                var reminder := InspectionReminder(args.inspectionType, args.date, OrElse(args.inspector, NoInspector));
                && notifications == old(notifications) + [Notice(old(projects)[args.projectId], reminder, Medium, now)]
                && r == Success(InspectionScheduled(args.inspectionType, args.date, args.inspector))
      ensures Route(name) == Success(Track) && args.projectId in old(projects) ==>
                var p := old(projects)[args.projectId];
                var milestone := MilestoneReached(args.phase, args.completion, OrElse(args.notes, NoNotes));
                && projects == old(projects)[args.projectId := Tracked(p, args.phase, args.completion, now)]
                && notifications == old(notifications)
                     + (if IsMilestone(args.completion) then [Notice(p, milestone, Low, now)] else [])
                && r == Success(ProgressUpdated(args.completion, args.phase, args.notes, AnnouncesMilestone(args.completion)))
      ensures Route(name) in {Success(Update), Success(Inspect), Success(Track)} ==>
                (r.Success? <==> args.projectId in old(projects))
      ensures Route(name) in {Success(Update), Success(Inspect)} ==> projects == old(projects)
      ensures Route(name) in {Success(Update), Success(Inspect), Success(Track)} && args.projectId !in old(projects) ==>
                r == Failure(ProjectNotFound(args.projectId))
                && projects == old(projects) && notifications == old(notifications)
    {
      var tool := Route(name);
      match tool
      case Failure(e) =>
        r := Failure(e);
      case Success(Create) =>
        var created := CreateProject(args.name, args.location, args.contact, args.timeline, args.budget, now);
        r := Success(created);
      case Success(Update) =>
        r := SendWhatsAppUpdate(args.projectId, Note(args.message), args.urgency, now);
      case Success(Inspect) =>
        r := ScheduleInspection(args.projectId, args.inspectionType, args.date, args.inspector, now);
      case Success(Track) =>
        r := TrackProgress(args.projectId, args.phase, args.completion, args.notes, now);
      case Success(_) =>
        r := Success(NotModelled(name));
    }
  }

  /** The rule is level-triggered: two updates to the same multiple of 25 log two
      milestone updates, each `low`. */
  method RepeatedMilestone(reg: Registry, projectId: string, phase: Phase, notes: Option<string>, t1: nat, t2: nat)
    requires reg.Valid() && projectId in reg.projects
    modifies reg
    ensures reg.Valid()
    ensures |reg.notifications| == |old(reg.notifications)| + 2
    ensures reg.notifications[|reg.notifications| - 1].urgency == Low
    ensures reg.notifications[|reg.notifications| - 2].urgency == Low
    ensures projectId in reg.projects && reg.projects[projectId].progress == 25
  {
    var first := reg.TrackProgress(projectId, phase, 25, notes, t1);
    var second := reg.TrackProgress(projectId, phase, 25, notes, t2);
  }
}
