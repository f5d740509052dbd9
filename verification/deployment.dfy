/**
 * The Deployment behind a PhDeployment (ee/controllers/phdeployment_controller.go): it is
 * rebuilt, scaled or left alone by comparison with the spec that was last applied, which it
 * carries as JSON in an annotation.
 */
module Deployments {
  import opened Prelude
  import opened Escapism

  /** `source` is valueFrom. */
  datatype EnvVar = EnvVar(name: Text, value: Text, source: Option<Text>)

  /** A PhDeploymentSpec and its predictor. Lists and maps may be nil, which differs from empty. */
  datatype Spec = Spec(stop: bool, replicas: int, image: Text, pullSecret: Text, instance: Text,
                       uri: Text, env: Option<seq<EnvVar>>, metadata: Option<map<Text, Text>>,
                       clients: Option<seq<Text>>, others: Text)

  /** What JSON with omitempty makes of a spec: an empty list or map comes back as nil. */
  function Norm(s: Spec): Spec {
    s.(env := if s.env == Some([]) then None else s.env,
       metadata := if s.metadata == Some(map[]) then None else s.metadata,
       clients := if s.clients == Some([]) then None else s.clients)
  }

  function EnvOf(s: Spec): seq<EnvVar> {
    if s.env.Some? then s.env.value else []
  }

  /** The annotation: none, a text that is no JSON, or the JSON of a spec, as it decodes. */
  datatype Annotation = Missing | Malformed | Applied(spec: Spec)

  /** What of the pod template comes from the spec. */
  datatype Template = Template(image: Text, pullSecret: Text, instance: Text, uri: Text, env: seq<EnvVar>)

  datatype Stored = Stored(replicas: int, template: Template, annotation: Annotation)

  class Deployment {
    var replicas: int                    // an int32
    var template: Template
    var annotation: Annotation

    constructor (d: Stored)
      ensures Value() == d
    {
      replicas, template, annotation := d.replicas, d.template, d.annotation;
    }

    function Value(): Stored
      reads this
    {
      Stored(replicas, template, annotation)
    }

    /** nil when there is none to decode; the error is ignored by the caller. */
    function GetLastApplied(): Option<Spec>
      reads this
    {
      if annotation.Applied? then Some(annotation.spec) else None
    }

    method SetLastApplied(spec: Spec)
      modifies `annotation
      ensures GetLastApplied() == Some(Norm(spec))
    {
      annotation := Applied(Norm(spec));
    }
  }

  /** The replicas that a spec asks for; int32 of an int wraps. */
  function Target(s: Spec): int {
    if s.stop then 0 else Wrap32(s.replicas)
  }

  function TemplateOf(s: Spec): Template {
    Template(s.image, s.pullSecret, s.instance, s.uri, EnvOf(s))
  }

  /** What buildDeployment makes, when it succeeds. */
  function Built(s: Spec): Stored {
    Stored(Target(s), TemplateOf(s), Applied(Norm(s)))
  }

  // ---- comparing specs ----

  /** The same names and values, in order; where values come from is not compared. */
  predicate EnvAgrees(a: seq<EnvVar>, b: seq<EnvVar>) {
    |a| == |b| && forall i :: 0 <= i < |a| ==> a[i].name == b[i].name && a[i].value == b[i].value
  }

  /** The fields that decide a full update. */
  predicate Agrees(t: Template, u: Template) {
    && t.image == u.image && t.pullSecret == u.pullSecret && t.instance == u.instance
    && t.uri == u.uri && EnvAgrees(t.env, u.env)
  }

  method CompareEnvVar(a: seq<EnvVar>, b: seq<EnvVar>) returns (same: bool)
    ensures same <==> EnvAgrees(a, b)
  {
    if |a| != |b| {
      return false;
    }
    for i := 0 to |a|
      invariant forall k :: 0 <= k < i ==> a[k].name == b[k].name && a[k].value == b[k].value
    {
      if a[i].name != b[i].name {
        return false;
      }
      if a[i].value != b[i].value {
        return false;
      }
    }
    same := true;
  }

  method NeedUpdateDeployment(spec: Spec, last: Option<Spec>) returns (need: bool)
    ensures need <==> last.None? || !Agrees(TemplateOf(spec), TemplateOf(last.value))
    ensures need <==> last.None? || spec.image != last.value.image || spec.pullSecret != last.value.pullSecret
                      || spec.instance != last.value.instance || spec.uri != last.value.uri
                      || !EnvAgrees(EnvOf(spec), EnvOf(last.value))
  {
    if last.None? {
      return true;
    }
    need := false;
    var sameEnv := CompareEnvVar(EnvOf(spec), EnvOf(last.value));
    if spec.image != last.value.image || spec.pullSecret != last.value.pullSecret
       || spec.instance != last.value.instance || spec.uri != last.value.uri || !sameEnv {
      need := true;
    }
  }

  predicate NeedScaleDeployment(spec: Spec, last: Spec) {
    spec.stop != last.stop || spec.replicas != last.replicas
  }

  // ---- reconciling ----

  /** How the calls of one reconcile go. */
  datatype Luck = Luck(found: bool, builds: bool, writes: bool)

  /** The Deployment with the spec applied, as updateDeployment edits it. */
  function Edited(spec: Spec, d: Stored): Stored {
    if !d.annotation.Applied? || !Agrees(TemplateOf(spec), TemplateOf(d.annotation.spec)) then Built(spec)
    else
      var replicas := if NeedScaleDeployment(spec, d.annotation.spec) then Target(spec) else d.replicas;
      Stored(replicas, d.template, Applied(Norm(spec)))
  }

  /** Does the edit need a build, which may fail? */
  predicate NeedsBuild(spec: Spec, d: Option<Stored>) {
    d.None? || !d.value.annotation.Applied? || !Agrees(TemplateOf(spec), TemplateOf(d.value.annotation.spec))
  }

  /** Does the reconcile call Create or Update? */
  predicate Calls(spec: Spec, d: Option<Stored>, luck: Luck) {
    && luck.found && (NeedsBuild(spec, d) ==> luck.builds)
    && (d.None? || d.value.annotation != Applied(spec))
  }

  function Next(spec: Spec, d: Option<Stored>, luck: Luck): Option<Stored> {
    if !Calls(spec, d, luck) || !luck.writes then d
    else if d.None? then Some(Built(spec))
    else Some(Edited(spec, d.value))
  }

  /** The API server's copy, and the calls that were made to it. */
  class Server {
    var stored: Option<Stored>
    ghost var calls: nat

    constructor ()
      ensures stored == None && calls == 0
    {
      stored, calls := None, 0;
    }

    method Write(d: Stored, luck: Luck) returns (err: bool)
      modifies this
      ensures calls == old(calls) + 1
      ensures stored == if luck.writes then Some(d) else old(stored)
      ensures err <==> !luck.writes
    {
      calls := calls + 1;
      err := !luck.writes;
      if !err {
        stored := Some(d);
      }
    }
  }

  method CreateDeployment(server: Server, spec: Spec, luck: Luck) returns (err: bool)
    requires server.stored.None? && luck.found
    modifies server
    ensures server.stored == Next(spec, None, luck)
    ensures server.calls == old(server.calls) + if Calls(spec, None, luck) then 1 else 0
    ensures err <==> luck.builds && !luck.writes
  {
    if !luck.builds {
      return false;
    }
    var deployment := new Deployment(Stored(Target(spec), TemplateOf(spec), Missing));
    deployment.SetLastApplied(spec);
    err := server.Write(deployment.Value(), luck);
  }

  /**
   * Unless a call fails, the edited object is what is stored: every change that was made in
   * memory is written.
   */
  method UpdateDeployment(server: Server, spec: Spec, current: Deployment, luck: Luck)
    returns (err: bool)
    requires server.stored == Some(current.Value()) && luck.found
    modifies server, current
    ensures server.stored == Next(spec, old(server.stored), luck)
    ensures server.calls == old(server.calls) + if Calls(spec, old(server.stored), luck) then 1 else 0
    ensures luck.writes ==> server.stored == Some(current.Value())
    ensures err <==> Calls(spec, old(server.stored), luck) && !luck.writes
  {
    var last := current.GetLastApplied();
    var update := NeedUpdateDeployment(spec, last);
    if update {
      if !luck.builds {
        return false;
      }
      current.replicas := Target(spec);
      current.template := TemplateOf(spec);
    } else if NeedScaleDeployment(spec, last.value) {
      var replicas := Wrap32(spec.replicas);
      if spec.stop {
        replicas := 0;
      }
      current.replicas := replicas;
    }
    err := false;
    if last != Some(spec) {
      current.SetLastApplied(spec);
      err := server.Write(current.Value(), luck);
    } else {
      AgreesItself(TemplateOf(spec));
    }
  }

  method ReconcileDeployment(server: Server, spec: Spec, luck: Luck) returns (err: bool)
    modifies server
    ensures server.stored == Next(spec, old(server.stored), luck)
    ensures server.calls == old(server.calls) + if Calls(spec, old(server.stored), luck) then 1 else 0
    ensures err <==> !luck.found || (Calls(spec, old(server.stored), luck) && !luck.writes)
  {
    if !luck.found {
      return true;
    }
    if server.stored.None? {
      err := CreateDeployment(server, spec, luck);
    } else {
      var current := new Deployment(server.stored.value);
      err := UpdateDeployment(server, spec, current, luck);
    }
  }

  // ---- what is kept in every run ----

  lemma AgreesItself(t: Template)
    ensures Agrees(t, t)
  {
  }

  /** No replicas when it is stopped, and else an int32 of those that the spec has. */
  predicate ScaledTo(d: Stored, s: Spec) {
    && (s.stop ==> d.replicas == 0)
    && (!s.stop && -0x8000_0000 <= s.replicas <= 0x7fff_ffff ==> d.replicas == s.replicas)
    && (!s.stop ==> -0x8000_0000 <= d.replicas <= 0x7fff_ffff && (d.replicas - s.replicas) % 0x1_0000_0000 == 0)
  }

  /** The names and values of the variables are those of the spec, in order; nil is an empty list. */
  predicate SameVariables(env: seq<EnvVar>, s: Spec) {
    match s.env
    case None => env == []
    case Some(mine) =>
      |env| == |mine| && forall i :: 0 <= i < |env| ==> env[i].name == mine[i].name && env[i].value == mine[i].value
  }

  /** The replicas, and the fields that are compared, are those of the spec. */
  predicate Shows(d: Stored, s: Spec) {
    && ScaledTo(d, s) && SameVariables(d.template.env, s)
    && d.template.image == s.image && d.template.pullSecret == s.pullSecret
    && d.template.instance == s.instance && d.template.uri == s.uri
  }

  lemma TargetScales(d: Stored, s: Spec)
    requires d.replicas == Target(s)
    ensures ScaledTo(d, s)
  {
    WrapExactly(s.replicas);
  }

  lemma ShowsExactly(d: Stored, s: Spec)
    requires d.replicas == Target(s) && Agrees(d.template, TemplateOf(s))
    ensures Shows(d, s)
  {
    TargetScales(d, s);
  }

  predicate Coherent(d: Stored) {
    && d.annotation.Applied? && d.replicas == Target(d.annotation.spec)
    && Agrees(d.template, TemplateOf(d.annotation.spec))
  }

  /** The user edits the spec as he likes; the group may lose its right to deploy. */
  datatype Event = Reconcile(spec: Spec, luck: Luck) | Release

  function After(d: Option<Stored>, e: Event): Option<Stored> {
    match e
    case Reconcile(spec, luck) => Next(spec, d, luck)
    case Release => None
  }

  function Run(events: seq<Event>): Option<Stored> {
    if events == [] then None else After(Run(events[..|events| - 1]), events[|events| - 1])
  }

  lemma NormAgrees(s: Spec)
    ensures TemplateOf(Norm(s)) == TemplateOf(s) && Target(Norm(s)) == Target(s)
  {
  }

  lemma EditedCoherent(spec: Spec, d: Stored)
    requires Coherent(d)
    ensures Coherent(Edited(spec, d))
  {
    NormAgrees(spec);
    AgreesItself(TemplateOf(spec));
  }

  lemma {:induction false} CoherentRuns(events: seq<Event>)
    ensures Run(events).Some? ==> Coherent(Run(events).value)
  {
    if events != [] {
      var n := |events| - 1;
      CoherentRuns(events[..n]);
      var d := Run(events[..n]);
      match events[n] {
        case Release =>
        case Reconcile(spec, luck) =>
          if d.Some? {
            EditedCoherent(spec, d.value);
          } else {
            NormAgrees(spec);
            AgreesItself(TemplateOf(spec));
          }
      }
    }
  }

  /**
   * In every run of reconciles, with builds and writes that fail or not, what is stored shows
   * the spec that its annotation says was last applied.
   */
  lemma AlwaysCoherent(events: seq<Event>)
    ensures Run(events).Some? ==>
              Run(events).value.annotation.Applied? && Shows(Run(events).value, Run(events).value.annotation.spec)
  {
    CoherentRuns(events);
    if Run(events).Some? {
      ShowsExactly(Run(events).value, Run(events).value.annotation.spec);
    }
  }

  lemma ConvergesTo(events: seq<Event>, spec: Spec)
    ensures var d := Next(spec, Run(events), Luck(true, true, true));
            && d.Some? && d.value.replicas == Target(spec)
            && Agrees(d.value.template, TemplateOf(spec)) && d.value.annotation == Applied(Norm(spec))
  {
    CoherentRuns(events);
    NormAgrees(spec);
    AgreesItself(TemplateOf(spec));
    var d := Run(events);
    if d.Some? {
      EditedCoherent(spec, d.value);
    }
  }

  /** What JSON with omitempty keeps: everything but the difference between empty and nil. */
  predicate Kept(s: Spec, t: Spec) {
    && t == s.(env := t.env, metadata := t.metadata, clients := t.clients)
    && t.env == (if s.env == Some([]) then None else s.env)
    && t.metadata == (if s.metadata == Some(map[]) then None else s.metadata)
    && t.clients == (if s.clients == Some([]) then None else s.clients)
  }

  /** A reconcile whose calls go through leaves what the spec asks for, and says so. */
  lemma Converges(events: seq<Event>, spec: Spec)
    ensures var d := Next(spec, Run(events), Luck(true, true, true));
            d.Some? && Shows(d.value, spec) && d.value.annotation.Applied? && Kept(spec, d.value.annotation.spec)
  {
    ConvergesTo(events, spec);
    ShowsExactly(Next(spec, Run(events), Luck(true, true, true)).value, spec);
  }

  /** Nothing changes unless the calls succeed; and no pod template without a build. */
  lemma FailuresChangeNothing(events: seq<Event>, spec: Spec, luck: Luck)
    ensures var d := Run(events);
            && (!luck.found || !luck.writes ==> Next(spec, d, luck) == d)
            && (!luck.builds ==>
                  (d.None? ==> Next(spec, d, luck).None?)
                  && (d.Some? ==> Next(spec, d, luck).Some? && Next(spec, d, luck).value.template == d.value.template
                                  && (!SameTemplateFields(spec, d.value.annotation) ==> Next(spec, d, luck) == d)))
  {
    CoherentRuns(events);
  }

  /** The spec and the last-applied one have the same fields that a full update is for. */
  predicate SameTemplateFields(s: Spec, a: Annotation) {
    && a.Applied? && s.image == a.spec.image && s.pullSecret == a.spec.pullSecret
    && s.instance == a.spec.instance && s.uri == a.spec.uri && EnvAgrees(EnvOf(s), EnvOf(a.spec))
  }

  /**
   * Repeated, it changes nothing; and it calls the server again exactly when the spec has an
   * empty list or map that JSON does not keep.
   */
  lemma RepeatCalls(events: seq<Event>, spec: Spec)
    ensures var good := Luck(true, true, true);
            var d := Next(spec, Run(events), good);
            && Next(spec, d, good) == d
            && (Calls(spec, d, good) <==>
                  spec.env == Some([]) || spec.metadata == Some(map[]) || spec.clients == Some([]))
  {
    ConvergesTo(events, spec);
    NormAgrees(spec);
    AgreesItself(TemplateOf(spec));
  }

  /**
   * Does the pod template become the one the spec describes? Where env values come from is not
   * compared: a spec that differs from the last-applied one in nothing else that is compared
   * is not rolled out, unless the stored environment is already the one it describes.
   */
  lemma RolledOutExactly(events: seq<Event>, spec: Spec)
    requires Run(events).Some?
    ensures var d, good := Run(events).value, Luck(true, true, true);
            && d.annotation.Applied?
            && (Next(spec, Some(d), good).value.template
                == Template(spec.image, spec.pullSecret, spec.instance, spec.uri, EnvOf(spec))
                <==> !SameTemplateFields(spec, d.annotation) || d.template.env == EnvOf(spec))
  {
    CoherentRuns(events);
    var d := Run(events).value;
    if d.annotation == Applied(spec) {
      AgreesItself(TemplateOf(spec));
    }
  }

  function OneVariable(source: Option<Text>): Spec {
    Spec(false, 1, [], [], [], [], Some([EnvVar([], [], source)]), None, None, [])
  }

  /** A variable that is to come from elsewhere keeps coming from where it did. */
  lemma SourceNotRolledOut(here: Text, there: Text) returns (events: seq<Event>)
    requires here != there
    ensures var d := Run(events);
            && d.Some? && d.value.annotation == Applied(OneVariable(Some(there)))
            && d.value.template == TemplateOf(OneVariable(Some(here)))
            && d.value.template != TemplateOf(OneVariable(Some(there)))
  {
    var before, after, good := OneVariable(Some(here)), OneVariable(Some(there)), Luck(true, true, true);
    events := [Reconcile(before, good), Reconcile(after, good)];
    assert events[..1] == [Reconcile(before, good)] && events[..1][..0] == [];
    assert Run(events[..1]) == Some(Built(before));
    assert TemplateOf(before).env[0] != TemplateOf(after).env[0];
  }
}
