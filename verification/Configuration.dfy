/** How a StatefulSet and its container are filled in from the TeamCity object. */
module Configuration {
  import opened PodTree
  import opened PodTemplate
  import opened ServerOptions
  import Cluster

  datatype Claim = Claim(name: string, mountName: string, mountPath: string)

  /** What all nodes share. */
  datatype Settings = Settings(
    image: string,
    claims: seq<Claim>,
    dataDir: Claim,
    serviceAccount: string,
    port: Tree,
    readinessEndpoint: Tree,
    healthEndpoint: Tree,
    startupProperties: map<string, string>,
    databaseSecret: string)

  /** One node. A probe is given without its HTTP handler; `heap` is the rendered heap size. */
  datatype NodeSettings = NodeSettings(
    name: string,
    serviceName: string,
    annotations: Tree,
    initContainers: Tree,
    nodeSelector: Tree,
    affinity: Tree,
    securityContext: Tree,
    limits: Tree,
    requests: Tree,
    heap: string,
    liveness: Tree,
    readiness: Tree,
    startup: Tree,
    env: seq<Tree>,
    responsibilities: seq<string>)

  function AllClaims(inst: Settings): seq<Claim> {
    inst.claims + [inst.dataDir]
  }

  function VolumeOf(claim: Claim): Tree {
    Struct([Text(claim.name), Ref(Struct([Text(claim.name)]))])
  }

  function MountOf(claim: Claim): Tree {
    Struct([Text(claim.mountName), Text(claim.mountPath)])
  }

  function Volumes(claims: seq<Claim>): (r: seq<Tree>)
    ensures |r| == |claims|
  {
    seq(|claims|, i requires 0 <= i < |claims| => VolumeOf(claims[i]))
  }

  function Mounts(claims: seq<Claim>): (r: seq<Tree>)
    ensures |r| == |claims|
  {
    seq(|claims|, i requires 0 <= i < |claims| => MountOf(claims[i]))
  }

  function Variable(name: string, value: string): Tree {
    Struct([Text(name), Text(value), Nil])
  }

  function FromField(name: string, path: string): Tree {
    Struct([Text(name), Text(""), Ref(Struct([Text("fieldRef"), Text(path), Text("")]))])
  }

  function FromSecret(name: string, secret: string, key: string): Tree {
    Struct([Text(name), Text(""), Ref(Struct([Text("secretKeyRef"), Text(secret), Text(key)]))])
  }

  function Joined(words: seq<string>): string {
    if words == [] then "" else if |words| == 1 then words[0] else words[0] + "," + Joined(words[1..])
  }

  function ExtraOptions(inst: Settings, node: NodeSettings): string {
    (if node.responsibilities == [] then ""
     else " " + ("-Dteamcity.server.responsibilities=" + Joined(node.responsibilities)))
    + Rendered(inst.startupProperties)
  }

  function ServerOpts(inst: Settings, node: NodeSettings): string {
    "-XX:+HeapDumpOnOutOfMemoryError" + " " + "-XX:+DisableExplicitGC"
    + " " + ("-XX:HeapDumpPath=" + inst.dataDir.mountPath + "/memoryDumps/" + node.name)
    + " " + ("-Dteamcity.server.nodeId=" + node.name)
    + " " + "-Dteamcity.server.rootURL=http://$(POD_NAME).$(POD_NAMESPACE)"
    + ExtraOptions(inst, node)
  }

  function DefaultEnv(inst: Settings, node: NodeSettings): seq<Tree> {
    [ FromField("POD_NAME", "metadata.name"),
      FromField("POD_NAMESPACE", "metadata.namespace"),
      Variable("TEAMCITY_DATA_PATH", inst.dataDir.mountPath),
      Variable("TEAMCITY_LOGS_PATH", inst.dataDir.mountPath + "/logs"),
      Variable("TEAMCITY_SERVER_MEM_OPTS", "-Xmx" + node.heap),
      Variable("TEAMCITY_SERVER_OPTS", ServerOpts(inst, node)) ]
  }

  function DatabaseEnv(secret: string): seq<Tree> {
    [ FromSecret("TEAMCITY_DB_USER", secret, "connectionProperties.user"),
      FromSecret("TEAMCITY_DB_PASSWORD", secret, "connectionProperties.password"),
      FromSecret("TEAMCITY_DB_URL", secret, "connectionUrl") ]
  }

  function Env(inst: Settings, node: NodeSettings): seq<Tree> {
    DefaultEnv(inst, node) + node.env + (if inst.databaseSecret == "" then [] else DatabaseEnv(inst.databaseSecret))
  }

  function Probe(settings: Tree, endpoint: Tree): Tree {
    Ref(Struct([settings, Ref(endpoint)]))
  }

  function ShutdownHook(): Tree {
    Ref(Struct([Nil, Ref(Slice([Text("/bin/sh"), Text("-c"), Text("/opt/teamcity/bin/shutdown.sh")]))]))
  }

  /** Command, working directory, termination message, security context and the rest, all unset. */
  function UnsetContainerFields(): Tree {
    Struct([Slice([]), Slice([]), Text(""), Slice([]), Slice([]), Slice([]), Text(""), Text(""), Nil,
            Number(0), Number(0), Number(0)])
  }

  datatype ContainerSpec = ContainerSpec(
    name: string,
    image: string,
    imagePullPolicy: string,
    lifecycle: Tree,
    livenessProbe: Tree,
    readinessProbe: Tree,
    startupProbe: Tree,
    limits: Tree,
    requests: Tree,
    ports: seq<Tree>,
    volumeMounts: seq<Tree>,
    env: seq<Tree>,
    rest: Tree)
  {
    function AsTree(): Tree {
      Struct([Text(name), Text(image), Text(imagePullPolicy), lifecycle, livenessProbe, readinessProbe, startupProbe,
              limits, requests, Slice(ports), Slice(volumeMounts), Slice(env), rest])
    }
  }

  function DesiredContainer(inst: Settings, node: NodeSettings): ContainerSpec {
    ContainerSpec("teamcity-server", inst.image, "IfNotPresent", ShutdownHook(),
                  Probe(node.liveness, inst.readinessEndpoint), Probe(node.readiness, inst.readinessEndpoint),
                  Probe(node.startup, inst.healthEndpoint), node.limits, node.requests, [inst.port],
                  Mounts(AllClaims(inst)), Env(inst, node), UnsetContainerFields())
  }

  function DesiredAround(inst: Settings, node: NodeSettings, containers: Tree, rest: Tree): Template {
    Template(Ref(Number(1)), node.annotations, Slice(Volumes(AllClaims(inst))), node.initContainers,
             containers, node.nodeSelector, Ref(node.affinity), Ref(node.securityContext),
             inst.serviceAccount, "", rest)
  }

  /** What the operator asks for. */
  function Desired(inst: Settings, node: NodeSettings): Template {
    DesiredAround(inst, node, Slice([DesiredContainer(inst, node).AsTree()]), Struct([]))
  }

  // ---- What a node's pod has to be, location by location ----

  /** A volume on the claim of its own name. */
  predicate IsVolume(t: Tree, claim: Claim) {
    t == Struct([Text(claim.name), Ref(Struct([Text(claim.name)]))])
  }

  predicate IsMount(t: Tree, claim: Claim) {
    t == Struct([Text(claim.mountName), Text(claim.mountPath)])
  }

  /** One volume for each claim of the spec, in order, then one for the data directory, and no other. */
  predicate VolumesOfSpec(inst: Settings, t: Tree) {
    && t.Slice? && |t.items| == |inst.claims| + 1
    && (forall i | 0 <= i < |inst.claims| :: IsVolume(t.items[i], inst.claims[i]))
    && IsVolume(t.items[|inst.claims|], inst.dataDir)
  }

  /** The same of the mounts. */
  predicate MountsOfSpec(inst: Settings, t: Tree) {
    && t.Slice? && |t.items| == |inst.claims| + 1
    && (forall i | 0 <= i < |inst.claims| :: IsMount(t.items[i], inst.claims[i]))
    && IsMount(t.items[|inst.claims|], inst.dataDir)
  }

  predicate HasValue(t: Tree, name: string, value: string) {
    t == Struct([Text(name), Text(value), Nil])
  }

  predicate TakesField(t: Tree, name: string, path: string) {
    t == Struct([Text(name), Text(""), Ref(Struct([Text("fieldRef"), Text(path), Text("")]))])
  }

  predicate TakesSecret(t: Tree, name: string, secret: string, key: string) {
    t == Struct([Text(name), Text(""), Ref(Struct([Text("secretKeyRef"), Text(secret), Text(key)]))])
  }

  /** Words with single spaces between them. */
  function Spaced(words: seq<string>): string {
    if words == [] then "" else if |words| == 1 then words[0] else words[0] + " " + Spaced(words[1..])
  }

  /** The options of the server, word by word; the startup properties stand last, by their keys. */
  function ServerWords(inst: Settings, name: string, responsibilities: seq<string>): seq<string> {
    ["-XX:+HeapDumpOnOutOfMemoryError",
     "-XX:+DisableExplicitGC",
     "-XX:HeapDumpPath=" + inst.dataDir.mountPath + "/memoryDumps/" + name,
     "-Dteamcity.server.nodeId=" + name,
     "-Dteamcity.server.rootURL=http://$(POD_NAME).$(POD_NAMESPACE)"]
    + (if responsibilities == [] then []
       else ["-Dteamcity.server.responsibilities=" + Joined(responsibilities)])
    + PropertyWords(inst.startupProperties)
  }

  function PropertyWords(properties: map<string, string>): seq<string> {
    var keys := Listing(properties.Keys);
    seq(|keys|, i requires 0 <= i < |keys| => "-D" + keys[i] + "=" + properties[keys[i]])
  }

  const SECRET_VARIABLES := ["TEAMCITY_DB_USER", "TEAMCITY_DB_PASSWORD", "TEAMCITY_DB_URL"]

  /** The variables of a node `name` with heap `heap`: six that every node has, then its own, then
      those of the database, if there is a secret for it. */
  predicate VariablesOf(inst: Settings, name: string, heap: string, responsibilities: seq<string>, own: seq<Tree>,
                        t: Tree) {
    && t.Slice? && |t.items| == 6 + |own| + (if inst.databaseSecret == "" then 0 else 3)
    && TakesField(t.items[0], "POD_NAME", "metadata.name")
    && TakesField(t.items[1], "POD_NAMESPACE", "metadata.namespace")
    && HasValue(t.items[2], "TEAMCITY_DATA_PATH", inst.dataDir.mountPath)
    && HasValue(t.items[3], "TEAMCITY_LOGS_PATH", inst.dataDir.mountPath + "/logs")
    && HasValue(t.items[4], "TEAMCITY_SERVER_MEM_OPTS", "-Xmx" + heap)
    && HasValue(t.items[5], "TEAMCITY_SERVER_OPTS", Spaced(ServerWords(inst, name, responsibilities)))
    && t.items[6..6 + |own|] == own
    && (inst.databaseSecret != "" ==>
          var k := 6 + |own|;
          && TakesSecret(t.items[k], "TEAMCITY_DB_USER", inst.databaseSecret, "connectionProperties.user")
          && TakesSecret(t.items[k + 1], "TEAMCITY_DB_PASSWORD", inst.databaseSecret, "connectionProperties.password")
          && TakesSecret(t.items[k + 2], "TEAMCITY_DB_URL", inst.databaseSecret, "connectionUrl"))
  }

  /** The node's own settings, asking the endpoint that all nodes share. */
  predicate IsProbe(t: Tree, settings: Tree, endpoint: Tree) {
    t == Ref(Struct([settings, Ref(endpoint)]))
  }

  predicate RunsBeforeStop(t: Tree, command: seq<Tree>) {
    t == Ref(Struct([Nil, Ref(Slice(command))]))
  }

  predicate SettingsOf(inst: Settings, node: NodeSettings, t: Tree) {
    && t.Struct? && |t.fields| == 13
    && t.fields[0] == Text("teamcity-server")
    && t.fields[1] == Text(inst.image)
    && t.fields[2] == Text("IfNotPresent")
    && RunsBeforeStop(t.fields[3], [Text("/bin/sh"), Text("-c"), Text("/opt/teamcity/bin/shutdown.sh")])
    && IsProbe(t.fields[4], node.liveness, inst.readinessEndpoint)
    && IsProbe(t.fields[5], node.readiness, inst.readinessEndpoint)
    && IsProbe(t.fields[6], node.startup, inst.healthEndpoint)
    && t.fields[7] == node.limits
    && t.fields[8] == node.requests
    && t.fields[9] == Slice([inst.port])
  }

  predicate ContainerOf(inst: Settings, node: NodeSettings, t: Tree) {
    && SettingsOf(inst, node, t)
    && MountsOfSpec(inst, t.fields[10])
    && VariablesOf(inst, node.name, node.heap, node.responsibilities, node.env, t.fields[11])
  }

  predicate PodOf(inst: Settings, node: NodeSettings, t: Template) {
    && t.replicas == Ref(Number(1))
    && t.annotations == node.annotations
    && VolumesOfSpec(inst, t.volumes)
    && t.initContainers == node.initContainers
    && t.containers.Slice? && |t.containers.items| == 1 && ContainerOf(inst, node, t.containers.items[0])
    && t.nodeSelector == node.nodeSelector
    && t.affinity == Ref(node.affinity)
    && t.securityContext == Ref(node.securityContext)
    && t.serviceAccount == inst.serviceAccount
    && t.deprecatedAccount == ""
  }

  lemma AllVolumesAndMounts(inst: Settings)
    ensures VolumesOfSpec(inst, Slice(Volumes(AllClaims(inst))))
    ensures MountsOfSpec(inst, Slice(Mounts(AllClaims(inst))))
  {
  }

  /** The responsibilities are separated by commas: seen from the other end. */
  lemma {:induction false} JoinedMore(words: seq<string>, last: string)
    ensures Joined(words + [last]) == if words == [] then last else Joined(words) + "," + last
  {
    if words != [] {
      assert (words + [last])[1..] == words[1..] + [last] && (words + [last])[0] == words[0];
      JoinedMore(words[1..], last);
    }
  }

  // ---- The options, word by word ----

  lemma {:induction false} SpacedMore(a: seq<string>, b: seq<string>)
    requires a != [] && b != []
    ensures Spaced(a + b) == Spaced(a) + " " + Spaced(b)
  {
    if |a| == 1 {
      assert (a + b)[1..] == b && (a + b)[0] == a[0];
    } else {
      assert (a + b)[1..] == a[1..] + b && (a + b)[0] == a[0];
      SpacedMore(a[1..], b);
    }
  }

  lemma SpacedTwo(first: string, rest: seq<string>)
    ensures Spaced([first] + rest) == if rest == [] then first else first + " " + Spaced(rest)
  {
    assert ([first] + rest)[1..] == rest;
  }

  lemma OptionIsWord(key: string, value: string, word: string)
    requires word == "-D" + key + "=" + value
    ensures ServerOptions.Option(key, value) == " " + word
  {
    assert " -D" == " " + "-D";
    assert " " + ("-D" + key + "=" + value) == (" " + "-D") + key + "=" + value;
  }

  lemma WordThenRest(word: string, rest: seq<string>, tail: string)
    requires tail == if rest == [] then "" else " " + Spaced(rest)
    ensures " " + word + tail == " " + Spaced([word] + rest)
  {
    SpacedTwo(word, rest);
  }

  lemma {:induction false} WordsAreRendered(keys: seq<string>, properties: map<string, string>, words: seq<string>)
    requires |words| == |keys| && forall k | k in keys :: k in properties
    requires forall i | 0 <= i < |keys| :: words[i] == "-D" + keys[i] + "=" + properties[keys[i]]
    ensures RenderedAlong(keys, properties) == if words == [] then "" else " " + Spaced(words)
  {
    if keys != [] {
      var tail := RenderedAlong(keys[1..], properties);
      WordsAreRendered(keys[1..], properties, words[1..]);
      OptionIsWord(keys[0], properties[keys[0]], words[0]);
      WordThenRest(words[0], words[1..], tail);
      assert words == [words[0]] + words[1..];
    }
  }

  lemma PropertiesInWords(properties: map<string, string>)
    ensures var words := PropertyWords(properties);
            Rendered(properties) == if words == [] then "" else " " + Spaced(words)
  {
    WordsAreRendered(Listing(properties.Keys), properties, PropertyWords(properties));
  }

  lemma Regrouped(x: string, y: string, z: string)
    ensures x + (y + z) == x + y + z
  {
  }

  lemma ThreeWords(a: string, b: string, c: string)
    ensures Spaced([a, b, c]) == a + " " + b + " " + c
  {
    assert [a, b, c][1..] == [b, c];
    TwoWords(b, c);
    Appended(a, b, c);
  }

  lemma FiveWords(a: string, b: string, c: string, d: string, e: string)
    ensures Spaced([a, b, c, d, e]) == a + " " + b + " " + c + " " + d + " " + e
  {
    ThreeWords(a, b, c);
    SpacedMore([a, b, c], [d, e]);
    assert [a, b, c] + [d, e] == [a, b, c, d, e];
    TwoWords(d, e);
    Appended(a + " " + b + " " + c, d, e);
  }

  lemma TwoWords(a: string, b: string)
    ensures Spaced([a, b]) == a + " " + b
  {
    assert [a, b][1..] == [b];
  }

  lemma Appended(x: string, d: string, e: string)
    ensures x + " " + (d + " " + e) == x + " " + d + " " + e
  {
  }

  /** Three groups of words, of which the last two may be empty. */
  lemma ThreeGroups(first: seq<string>, own: seq<string>, last: seq<string>)
    requires first != []
    ensures Spaced(first + own + last)
         == Spaced(first)
            + (if own == [] then "" else " " + Spaced(own))
            + (if last == [] then "" else " " + Spaced(last))
  {
    if own != [] {
      SpacedMore(first, own);
    } else {
      assert first + own == first;
    }
    if last != [] {
      SpacedMore(first + own, last);
    } else {
      assert first + own + last == first + own;
    }
  }

  lemma ExtraOptionsInWords(inst: Settings, node: NodeSettings, first: seq<string>)
    requires first != []
    ensures var own := if node.responsibilities == [] then []
                       else ["-Dteamcity.server.responsibilities=" + Joined(node.responsibilities)];
            Spaced(first) + ExtraOptions(inst, node) == Spaced(first + own + PropertyWords(inst.startupProperties))
  {
    var r := "-Dteamcity.server.responsibilities=" + Joined(node.responsibilities);
    var own := if node.responsibilities == [] then [] else [r];
    ThreeGroups(first, own, PropertyWords(inst.startupProperties));
    PropertiesInWords(inst.startupProperties);
    Regrouped(Spaced(first), if own == [] then "" else " " + r, Rendered(inst.startupProperties));
  }

  lemma OptionsInWords(inst: Settings, node: NodeSettings)
    ensures ServerOpts(inst, node) == Spaced(ServerWords(inst, node.name, node.responsibilities))
  {
    var a, b := "-XX:+HeapDumpOnOutOfMemoryError", "-XX:+DisableExplicitGC";
    var c := "-XX:HeapDumpPath=" + inst.dataDir.mountPath + "/memoryDumps/" + node.name;
    var d := "-Dteamcity.server.nodeId=" + node.name;
    var e := "-Dteamcity.server.rootURL=http://$(POD_NAME).$(POD_NAMESPACE)";
    FiveWords(a, b, c, d, e);
    ExtraOptionsInWords(inst, node, [a, b, c, d, e]);
  }

  lemma EnvIsVariables(inst: Settings, node: NodeSettings)
    ensures VariablesOf(inst, node.name, node.heap, node.responsibilities, node.env, Slice(Env(inst, node)))
  {
    OptionsInWords(inst, node);
    var items := Env(inst, node);
    assert items[6..6 + |node.env|] == node.env;
  }

  lemma DesiredSettings(inst: Settings, node: NodeSettings)
    ensures var t := DesiredContainer(inst, node).AsTree();
            && SettingsOf(inst, node, t)
            && t.fields[10] == Slice(Mounts(AllClaims(inst))) && t.fields[11] == Slice(Env(inst, node))
  {
  }

  lemma ContainerFromParts(inst: Settings, node: NodeSettings, t: Tree)
    requires SettingsOf(inst, node, t)
    requires t.fields[10] == Slice(Mounts(AllClaims(inst))) && t.fields[11] == Slice(Env(inst, node))
    ensures ContainerOf(inst, node, t)
  {
    AllVolumesAndMounts(inst);
    EnvIsVariables(inst, node);
  }

  lemma DesiredIsContainer(inst: Settings, node: NodeSettings)
    ensures ContainerOf(inst, node, DesiredContainer(inst, node).AsTree())
  {
    DesiredSettings(inst, node);
    ContainerFromParts(inst, node, DesiredContainer(inst, node).AsTree());
  }

  /** What `Update` leaves behind holds what the spec says at each location. */
  lemma DesiredIsPod(inst: Settings, node: NodeSettings, t: Template)
    ensures PodOf(inst, node, Configured(Desired(inst, node), t))
    ensures Configured(Desired(inst, node), t).rest == t.rest
  {
    AllVolumesAndMounts(inst);
    DesiredIsContainer(inst, node);
  }

  /** The server finds its data directory where a claim is mounted. */
  lemma DataPathIsMounted(inst: Settings, node: NodeSettings, t: Tree)
    requires ContainerOf(inst, node, t)
    ensures HasValue(t.fields[11].items[2], "TEAMCITY_DATA_PATH", inst.dataDir.mountPath)
    ensures exists i | 0 <= i < |t.fields[10].items| :: MountsAt(t.fields[10].items[i], inst.dataDir.mountPath)
  {
    assert MountsAt(t.fields[10].items[|inst.claims|], inst.dataDir.mountPath);
  }

  predicate MountsAt(t: Tree, path: string) {
    t.Struct? && |t.fields| == 2 && t.fields[1] == Text(path)
  }

  // ---- Which of several variables of one name counts ----

  function NameOf(t: Tree): string {
    if t.Struct? && t.fields != [] && t.fields[0].Text? then t.fields[0].text else ""
  }

  /** Of variables with one name the last one counts. */
  function Effective(env: seq<Tree>, name: string): Option<Tree> {
    if env == [] then None
    else if NameOf(env[|env| - 1]) == name then Some(env[|env| - 1])
    else Effective(env[..|env| - 1], name)
  }

  lemma {:induction false} EffectiveOfBoth(a: seq<Tree>, b: seq<Tree>, name: string)
    ensures Effective(a + b, name) == if Effective(b, name).Some? then Effective(b, name) else Effective(a, name)
    decreases |b|
  {
    if b == [] {
      assert a + b == a;
    } else {
      assert (a + b)[..|a + b| - 1] == a + b[..|b| - 1];
      EffectiveOfBoth(a, b[..|b| - 1], name);
    }
  }

  lemma {:induction false} EffectiveIsLast(env: seq<Tree>, name: string, i: nat)
    requires i < |env| && NameOf(env[i]) == name && forall k | i < k < |env| :: NameOf(env[k]) != name
    ensures Effective(env, name) == Some(env[i])
    decreases |env|
  {
    if i < |env| - 1 {
      EffectiveIsLast(env[..|env| - 1], name, i);
    }
  }

  lemma {:induction false} NoneEffective(env: seq<Tree>, name: string)
    requires forall k | 0 <= k < |env| :: NameOf(env[k]) != name
    ensures Effective(env, name).None?
    decreases |env|
  {
    if env != [] {
      NoneEffective(env[..|env| - 1], name);
    }
  }

  lemma VariableParts(inst: Settings, name: string, heap: string, responsibilities: seq<string>, own: seq<Tree>,
                      t: Tree)
    requires VariablesOf(inst, name, heap, responsibilities, own, t)
    ensures t.items == t.items[..6] + own + t.items[6 + |own|..]
    ensures |t.items[6 + |own|..]| == if inst.databaseSecret == "" then 0 else 3
    ensures forall k | 0 <= k < 6 :: NameOf(t.items[k]) !in SECRET_VARIABLES
    ensures forall k | 6 + |own| <= k < |t.items| :: NameOf(t.items[k]) == SECRET_VARIABLES[k - 6 - |own|]
    ensures forall i, k | 0 <= i < k < 6 :: NameOf(t.items[i]) != NameOf(t.items[k])
  {
    var items := t.items;
    assert items == items[..6] + items[6..6 + |own|] + items[6 + |own|..];
    assert NameOf(items[0]) == "POD_NAME" && NameOf(items[1]) == "POD_NAMESPACE";
    assert NameOf(items[2]) == "TEAMCITY_DATA_PATH" && NameOf(items[3]) == "TEAMCITY_LOGS_PATH";
    assert NameOf(items[4]) == "TEAMCITY_SERVER_MEM_OPTS";
    assert NameOf(items[5]) == "TEAMCITY_SERVER_OPTS";
    VariableNamesDiffer();
  }

  lemma VariableNamesDiffer()
    ensures var names := ["POD_NAME", "POD_NAMESPACE", "TEAMCITY_DATA_PATH", "TEAMCITY_LOGS_PATH",
                          "TEAMCITY_SERVER_MEM_OPTS", "TEAMCITY_SERVER_OPTS"] + SECRET_VARIABLES;
            forall i, k | 0 <= i < k < |names| :: names[i] != names[k]
  {
    assert |"POD_NAME"| == 8 && |"POD_NAMESPACE"| == 13 && |"TEAMCITY_DATA_PATH"| == 18 && |"TEAMCITY_LOGS_PATH"| == 18;
    assert |"TEAMCITY_SERVER_MEM_OPTS"| == 24 && |"TEAMCITY_SERVER_OPTS"| == 20;
    assert |"TEAMCITY_DB_USER"| == 16 && |"TEAMCITY_DB_PASSWORD"| == 20 && |"TEAMCITY_DB_URL"| == 15;
    assert "TEAMCITY_DATA_PATH"[9] == 'D' && "TEAMCITY_LOGS_PATH"[9] == 'L';
    assert "TEAMCITY_SERVER_OPTS"[9] == 'S' && "TEAMCITY_DB_PASSWORD"[9] == 'D';
  }

  /** A variable of the database comes from its secret, whatever the node says. */
  lemma SecretDecides(inst: Settings, name: string, heap: string, responsibilities: seq<string>, own: seq<Tree>,
                      t: Tree, i: nat)
    requires VariablesOf(inst, name, heap, responsibilities, own, t) && inst.databaseSecret != "" && i < 3
    ensures Effective(t.items, SECRET_VARIABLES[i]) == Some(t.items[6 + |own| + i])
  {
    var k := 6 + |own|;
    VariableParts(inst, name, heap, responsibilities, own, t);
    VariableNamesDiffer();
    forall m | k + i < m < |t.items| ensures NameOf(t.items[m]) != SECRET_VARIABLES[i] {
      assert NameOf(t.items[m]) == SECRET_VARIABLES[m - k];
    }
    EffectiveIsLast(t.items, SECRET_VARIABLES[i], k + i);
  }

  lemma WithoutSecret(inst: Settings, name: string, heap: string, responsibilities: seq<string>, own: seq<Tree>,
                      t: Tree, v: string)
    requires VariablesOf(inst, name, heap, responsibilities, own, t)
    requires inst.databaseSecret == "" || v !in SECRET_VARIABLES
    ensures Effective(t.items, v) == if Effective(own, v).Some? then Effective(own, v) else Effective(t.items[..6], v)
  {
    var k := 6 + |own|;
    var first, last := t.items[..6], t.items[k..];
    VariableParts(inst, name, heap, responsibilities, own, t);
    forall m | 0 <= m < |last| ensures NameOf(last[m]) != v {
      assert last[m] == t.items[k + m] && NameOf(t.items[k + m]) == SECRET_VARIABLES[m];
    }
    NoneEffective(last, v);
    EffectiveOfBoth(first + own, last, v);
    EffectiveOfBoth(first, own, v);
  }

  /** Any other variable that the node sets itself is the node's. */
  lemma NodeDecides(inst: Settings, name: string, heap: string, responsibilities: seq<string>, own: seq<Tree>, t: Tree,
                    v: string)
    requires VariablesOf(inst, name, heap, responsibilities, own, t)
    requires (inst.databaseSecret == "" || v !in SECRET_VARIABLES) && Effective(own, v).Some?
    ensures Effective(t.items, v) == Effective(own, v)
  {
    WithoutSecret(inst, name, heap, responsibilities, own, t, v);
  }

  /** And the six of every node are the operator's otherwise. */
  lemma OperatorDecides(inst: Settings, name: string, heap: string, responsibilities: seq<string>, own: seq<Tree>,
                        t: Tree, i: nat)
    requires VariablesOf(inst, name, heap, responsibilities, own, t)
    requires i < 6 && Effective(own, NameOf(t.items[i])).None?
    ensures Effective(t.items, NameOf(t.items[i])) == Some(t.items[i])
  {
    VariableParts(inst, name, heap, responsibilities, own, t);
    WithoutSecret(inst, name, heap, responsibilities, own, t, NameOf(t.items[i]));
    EffectiveIsLast(t.items[..6], NameOf(t.items[i]), i);
  }

  // ---- The same, step by step ----

  class Container {
    var name: string
    var image: string
    var imagePullPolicy: string
    var lifecycle: Tree
    var livenessProbe: Tree
    var readinessProbe: Tree
    var startupProbe: Tree
    var limits: Tree
    var requests: Tree
    var ports: seq<Tree>
    var volumeMounts: seq<Tree>
    var env: seq<Tree>
    var rest: Tree

    constructor ()
      ensures rest == UnsetContainerFields()
    {
      name, image, imagePullPolicy := "", "", "";
      lifecycle, livenessProbe, readinessProbe, startupProbe := Nil, Nil, Nil, Nil;
      limits, requests := Dict(map[]), Dict(map[]);
      ports, volumeMounts, env := [], [], [];
      rest := UnsetContainerFields();
    }

    function Value(): ContainerSpec
      reads this
    {
      ContainerSpec(name, image, imagePullPolicy, lifecycle, livenessProbe, readinessProbe, startupProbe,
                    limits, requests, ports, volumeMounts, env, rest)
    }
  }

  class StatefulSetObject {
    var serviceName: string
    var replicas: Tree
    var annotations: Tree
    var volumes: Tree
    var initContainers: Tree
    var containers: Tree
    var nodeSelector: Tree
    var affinity: Tree
    var securityContext: Tree
    var serviceAccount: string
    var deprecatedAccount: string
    var rest: Tree

    /** A StatefulSet that nothing was written to yet. */
    constructor Empty(rest: Tree)
      ensures this.rest == rest && serviceName == ""
    {
      serviceName := "";
      replicas, annotations, volumes, initContainers, containers := Nil, Dict(map[]), Slice([]), Slice([]), Slice([]);
      nodeSelector, affinity, securityContext := Dict(map[]), Nil, Nil;
      serviceAccount, deprecatedAccount := "", "";
      this.rest := rest;
    }

    function Value(): Template
      reads this
    {
      Template(replicas, annotations, volumes, initContainers, containers, nodeSelector, affinity, securityContext,
               serviceAccount, deprecatedAccount, rest)
    }
  }

  method BuildVolumesFromPersistentVolumeClaims(claims: seq<Claim>) returns (volumes: seq<Tree>)
    ensures volumes == Volumes(claims)
  {
    volumes := [];
    for i := 0 to |claims|
      invariant volumes == Volumes(claims)[..i]
    {
      volumes := volumes + [VolumeOf(claims[i])];
    }
  }

  method BuildVolumeMountsFromPersistentVolumeClaims(claims: seq<Claim>) returns (mounts: seq<Tree>)
    ensures mounts == Mounts(claims)
  {
    mounts := [];
    for i := 0 to |claims|
      invariant mounts == Mounts(claims)[..i]
    {
      mounts := mounts + [MountOf(claims[i])];
    }
  }

  method BuildEnvVariablesFromGlobalAndNodeSpecificSettings(inst: Settings, node: NodeSettings) returns (env: seq<Tree>)
    ensures env == Env(inst, node)
  {
    var extraServerOpts := ConvertStartUpPropertiesToServerOptions(inst.startupProperties);
    var responsibilities := "";
    if |node.responsibilities| > 0 {
      responsibilities := " " + ("-Dteamcity.server.responsibilities=" + Joined(node.responsibilities));
    }
    extraServerOpts := responsibilities + extraServerOpts;
    assert extraServerOpts == ExtraOptions(inst, node);
    env := DefaultEnv(inst, node);
    env := env + node.env;
    if inst.databaseSecret != "" {
      env := env + DatabaseEnv(inst.databaseSecret);
    }
  }

  /** The fields that the operator never sets keep what they hold. */
  method ConfigureContainer(inst: Settings, node: NodeSettings, container: Container)
    modifies container
    ensures container.Value() == DesiredContainer(inst, node).(rest := old(container.rest))
  {
    container.name, container.image, container.imagePullPolicy := "teamcity-server", inst.image, "IfNotPresent";
    container.lifecycle, container.limits, container.requests := ShutdownHook(), node.limits, node.requests;
    ConfigureProbes(inst, node, container);
    container.ports := [inst.port];
    container.volumeMounts := BuildVolumeMountsFromPersistentVolumeClaims(AllClaims(inst));
    container.env := BuildEnvVariablesFromGlobalAndNodeSpecificSettings(inst, node);
  }

  method ConfigureProbes(inst: Settings, node: NodeSettings, container: Container)
    modifies container`livenessProbe, container`readinessProbe, container`startupProbe
    ensures container.livenessProbe == Probe(node.liveness, inst.readinessEndpoint)
    ensures container.readinessProbe == Probe(node.readiness, inst.readinessEndpoint)
    ensures container.startupProbe == Probe(node.startup, inst.healthEndpoint)
  {
    container.livenessProbe := Probe(node.liveness, inst.readinessEndpoint);
    container.readinessProbe := Probe(node.readiness, inst.readinessEndpoint);
    container.startupProbe := Probe(node.startup, inst.healthEndpoint);
  }

  /** Everything but the containers; an empty service name leaves the stored one alone. */
  method ConfigureStatefulSet(inst: Settings, node: NodeSettings, current: StatefulSetObject)
    modifies current
    ensures current.Value() == DesiredAround(inst, node, old(current.containers), old(current.rest))
    ensures current.serviceName == (if node.serviceName == "" then old(current.serviceName) else node.serviceName)
  {
    var volumes := BuildVolumesFromPersistentVolumeClaims(AllClaims(inst));
    current.replicas, current.annotations, current.volumes := Ref(Number(1)), node.annotations, Slice(volumes);
    current.initContainers, current.nodeSelector := node.initContainers, node.nodeSelector;
    current.affinity, current.securityContext := Ref(node.affinity), Ref(node.securityContext);
    current.serviceAccount, current.deprecatedAccount := inst.serviceAccount, "";
    if node.serviceName != "" {
      current.serviceName := node.serviceName;
    }
  }

  /** The update that both StatefulSet builders make to a StatefulSet read from the cluster. */
  method Update(inst: Settings, node: NodeSettings, statefulSet: StatefulSetObject)
    modifies statefulSet
    ensures statefulSet.Value() == Configured(Desired(inst, node), old(statefulSet.Value()))
    ensures statefulSet.serviceName ==
            if node.serviceName == "" then old(statefulSet.serviceName) else node.serviceName
  {
    ConfigureStatefulSet(inst, node, statefulSet);
    var container := new Container();
    ConfigureContainer(inst, node, container);
    statefulSet.containers := Slice([container.Value().AsTree()]);
  }

  function SpecWithService(serviceName: string, spec: Tree): Tree {
    Struct([Text(serviceName), spec])
  }

  lemma ServiceNameCounts(a: string, x: Tree, b: string, y: Tree)
    ensures Derives(SpecWithService(a, x), SpecWithService(b, y)) <==> (a == "" || a == b) && Derives(x, y)
  {
    var d, e := SpecWithService(a, x), SpecWithService(b, y);
    assert d.fields[0] == Text(a) && d.fields[1] == x && e.fields[0] == Text(b) && e.fields[1] == y;
  }

  /** The detector configures an empty StatefulSet and compares it with the stored one. */
  method ChangesRequireNodeStatefulSetRestart(inst: Settings, node: NodeSettings, existing: StatefulSetObject)
    returns (restart: bool)
    ensures restart <==>
              || Detects(Desired(inst, node), existing.Value())
              || (node.serviceName != "" && node.serviceName != existing.serviceName)
  {
    var desired := new StatefulSetObject.Empty(Zero(existing.rest));
    ConfigureStatefulSet(inst, node, desired);
    var container := new Container();
    ConfigureContainer(inst, node, container);
    desired.containers := Slice([container.Value().AsTree()]);
    var asked := Spec(desired.Value());
    assert asked == Asked(Desired(inst, node), existing.Value());
    var stored := Spec(existing.Value());
    restart := !Derives(SpecWithService(desired.serviceName, asked), SpecWithService(existing.serviceName, stored));
    ServiceNameCounts(desired.serviceName, asked, existing.serviceName, stored);
  }

  // ---- The update replica ----

  /** The replica's node has a name and the memory of the main node, and nothing else. */
  function BuildRoNode(main: NodeSettings): NodeSettings {
    NodeSettings(Cluster.ReplicaOf(main.name), "", Dict(map[]), Slice([]), Dict(map[]), Nil, Nil, Dict(map[]),
                 main.requests, main.heap, Nil, Nil, Nil, [], [])
  }

  const ENV_FIELD: nat := 11

  predicate HasContainer(containers: Tree) {
    && containers.Slice? && containers.items != []
    && containers.items[0].Struct? && ENV_FIELD < |containers.items[0].fields|
  }

  /** `b` is `a` but for the variables of the first container. */
  predicate SameButVariables(a: Tree, b: Tree) {
    && HasContainer(a) && HasContainer(b) && |b.items| == |a.items|
    && (forall i | 0 < i < |a.items| :: b.items[i] == a.items[i])
    && |b.items[0].fields| == |a.items[0].fields| > 11
    && (forall i | 0 <= i < |a.items[0].fields| && i != 11 :: b.items[0].fields[i] == a.items[0].fields[i])
  }

  /** The replica's pod is the one stored for the main node, but for the variables: those are of a node
      of its own, with the main node's name and a suffix, its heap, and none of its own variables or
      responsibilities. */
  predicate ReplicaPodOf(inst: Settings, mainNode: NodeSettings, main: Template, replica: Template)
  {
    && SameButVariables(main.containers, replica.containers)
    && VariablesOf(inst, mainNode.name + "-update-replica", mainNode.heap, [], [],
                   replica.containers.items[0].fields[11])
    && replica.volumes == main.volumes && replica.initContainers == main.initContainers
    && replica.nodeSelector == main.nodeSelector && replica.affinity == main.affinity
    && replica.securityContext == main.securityContext && replica.serviceAccount == main.serviceAccount
    && replica.deprecatedAccount == main.deprecatedAccount
  }

  lemma ReplicaVariables(inst: Settings, mainNode: NodeSettings)
    ensures VariablesOf(inst, mainNode.name + "-update-replica", mainNode.heap, [], [],
                        Slice(Env(inst, BuildRoNode(mainNode))))
  {
    EnvIsVariables(inst, BuildRoNode(mainNode));
  }

  /** What `UpdateROStatefulSet` leaves behind is such a pod. */
  lemma ReplicaIsPod(inst: Settings, mainNode: NodeSettings, main: Template, replica: Template)
    requires HasContainer(main.containers)
    ensures ReplicaPodOf(inst, mainNode, main,
                         main.(replicas := replica.replicas, annotations := replica.annotations, rest := replica.rest,
                               containers := WithEnv(main.containers, Env(inst, BuildRoNode(mainNode)))))
  {
    ReplicaVariables(inst, mainNode);
  }

  /** The first container with other variables. */
  function WithEnv(containers: Tree, env: seq<Tree>): Tree
    requires HasContainer(containers)
  {
    var first := containers.items[0];
    Slice(containers.items[0 := Struct(first.fields[ENV_FIELD := Slice(env)])])
  }

  /** The pod of the stored main node is copied, whatever the spec now says; only the variables
      are made anew. Replicas, annotations and service name of the replica stay what they were. */
  method UpdateROStatefulSet(inst: Settings, mainNode: NodeSettings, main: StatefulSetObject,
                             replica: StatefulSetObject)
    requires main != replica && HasContainer(main.containers)
    modifies replica
    ensures replica.Value() ==
            main.Value().(replicas := old(replica.replicas), annotations := old(replica.annotations),
                          rest := old(replica.rest),
                          containers := WithEnv(main.containers, Env(inst, BuildRoNode(mainNode))))
    ensures replica.serviceName == old(replica.serviceName)
  {
    var node := BuildRoNode(mainNode);
    replica.volumes, replica.initContainers := main.volumes, main.initContainers;
    replica.nodeSelector, replica.affinity := main.nodeSelector, main.affinity;
    replica.securityContext, replica.serviceAccount := main.securityContext, main.serviceAccount;
    replica.deprecatedAccount := main.deprecatedAccount;
    var envVars := BuildEnvVariablesFromGlobalAndNodeSpecificSettings(inst, node);
    replica.containers := WithEnv(main.containers, envVars);
  }

  lemma OnlyEnvDiffers(containers: Tree, env: seq<Tree>)
    requires HasContainer(containers)
    ensures var copy, stored := WithEnv(containers, env).items[0].fields, containers.items[0].fields;
            |copy| == |stored| && forall i | 0 <= i < |copy| && i != ENV_FIELD :: copy[i] == stored[i]
  {
  }

  /** Whatever the spec says by then, the replica gives the server a node id of its own. */
  lemma NodeIdsDiffer(inst: Settings, now: Settings, main: NodeSettings)
    ensures ServerWords(inst, main.name, main.responsibilities)[3] == "-Dteamcity.server.nodeId=" + main.name
    ensures ServerWords(now, main.name + "-update-replica", [])[3] != "-Dteamcity.server.nodeId=" + main.name
  {
    assert |ServerWords(now, main.name + "-update-replica", [])[3]| > |"-Dteamcity.server.nodeId=" + main.name|;
  }

  /** No option of the main node's own reaches the replica. */
  lemma ReplicaOptions(now: Settings, main: NodeSettings)
    ensures ExtraOptions(now, BuildRoNode(main)) == Rendered(now.startupProperties)
  {
    assert "" + Rendered(now.startupProperties) == Rendered(now.startupProperties);
  }

  /** During an upgrade the replica serves with the image that the main node still has, whatever
      the server has filled in meanwhile and whatever the variables are now. */
  lemma ReplicaRunsOldImage(server: Server, inst: Settings, node: NodeSettings, before: Template, env: seq<Tree>)
    requires Lawful(server) && inst.image != ""
    ensures var stored := Write(server, Desired(inst, node), before).containers;
            HasContainer(stored) && WithEnv(stored, env).items[0].fields[1] == Text(inst.image)
  {
    var asked := Slice([DesiredContainer(inst, node).AsTree()]);
    var stored := Write(server, Desired(inst, node), before).containers;
    assert Completes(asked, stored);
    assert Completes(asked.items[0], stored.items[0]);
    assert Completes(asked.items[0].fields[1], stored.items[0].fields[1]);
    OnlyEnvDiffers(stored, env);
  }

  /** While the main node stays as it is stored, an edit makes another replica exactly if it changes
      the variables that the replica is given. */
  lemma SameReplicaIffSameVariables(stored: Tree, before: Settings, after: Settings, main: NodeSettings,
                                    edited: NodeSettings)
    requires HasContainer(stored)
    ensures WithEnv(stored, Env(before, BuildRoNode(main))) == WithEnv(stored, Env(after, BuildRoNode(edited))) <==>
            Env(before, BuildRoNode(main)) == Env(after, BuildRoNode(edited))
  {
    var a, b := WithEnv(stored, Env(before, BuildRoNode(main))), WithEnv(stored, Env(after, BuildRoNode(edited)));
    assert a.items[0].fields[ENV_FIELD] == Slice(Env(before, BuildRoNode(main)));
    assert b.items[0].fields[ENV_FIELD] == Slice(Env(after, BuildRoNode(edited)));
  }
}
