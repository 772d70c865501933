/**
 * The SSH / Google Cloud server: a host-keyed registry of SSH clients, remote
 * command execution through it, a three-step deploy over SSH, and the shaping
 * of Compute Engine instance listings behind a lazily created manager.
 *
 * The SSH library and the Compute client are not modelled: the caller supplies
 * what each call did (ConnectOutcome, ExecOutcome, ListOutcome).
 */
module Gssh {
  import opened Common

  // ------------------------------------------------------------------ SSH

  /** The credentials handed to `client.connect`: the key file when `key_path` is non-empty, else the password. */
  datatype Auth = KeyFile(path: string) | Password(password: Option<string>)

  function AuthOf(keyPath: Option<string>, password: Option<string>): (a: Auth)
    ensures a.KeyFile? <==> keyPath.Some? && keyPath.value != ""
    ensures a.KeyFile? ==> a.path == keyPath.value
    ensures a.Password? ==> a.password == password
  {
    if keyPath.Some? && keyPath.value != "" then KeyFile(keyPath.value) else Password(password)
  }

  /**
   * A connected `paramiko.SSHClient`. Every `connect` call creates a new
   * client object; `serial` stands for that object's identity.
   */
  datatype Client = Client(serial: nat, host: string, username: string, auth: Auth)

  /** Whether `client.connect` returned or raised. */
  datatype ConnectOutcome = Connects | ConnectFails(message: string)

  /** What `exec_command` and reading its streams did on the remote host. */
  datatype ExecOutcome =
    | ExecDone(stdout: string, stderr: string, exitStatus: int)
    | ExecFails(message: string)

  /** The dictionary `SSHManager.execute_command` returns. */
  datatype ExecReply =
    | NoConnection(error: string)  // {"error": ...} with no "success" key
    | ExecRan(command: string, exitCode: int, stdout: string, stderr: string, success: bool)
    | ExecError(error: string)     // {"error": ..., "success": False}
  {
    /** The value under the "success" key, if it is there. */
    function SuccessKey(): Option<bool>
    {
      match this
      case NoConnection(_) => None
      case ExecRan(_, _, _, _, s) => Some(s)
      case ExecError(_) => Some(false)
    }

    /** `result.get("success", False)`: a missing key counts as failure. */
    predicate Succeeded() { SuccessKey() == Some(true) }
  }

  /** The reply to running `command` on `host`, given whether `host` has a client and what the run did. */
  function ExecReplyOf(connected: bool, host: string, command: string, outcome: ExecOutcome): (r: ExecReply)
    ensures !connected ==> r == NoConnection("No connection to " + host)
    ensures connected <==> r.SuccessKey().Some?
    ensures r.Succeeded() <==> connected && outcome.ExecDone? && outcome.exitStatus == 0
    ensures connected && outcome.ExecDone? ==>
      r == ExecRan(command, outcome.exitStatus, outcome.stdout, outcome.stderr, outcome.exitStatus == 0)
    ensures connected && outcome.ExecFails? ==> r == ExecError(outcome.message)
  {
    if !connected then NoConnection("No connection to " + host)
    else match outcome
      case ExecDone(out, err, code) => ExecRan(command, code, out, err, code == 0)
      case ExecFails(msg) => ExecError(msg)
  }

  /** `SSHManager`: open SSH clients keyed by host name. */
  class SSHManager {
    var connections: map<string, Client>
    /** How many client objects `connect` has created so far. */
    var created: nat

    constructor ()
      ensures connections == map[] && created == 0
    {
      connections := map[];
      created := 0;
    }

    /**
     * `SSHManager.connect`: a new client is stored under `host`, replacing
     * any earlier one whoever it was for, only when connecting succeeded.
     */
    method Connect(host: string, username: string, keyPath: Option<string>, password: Option<string>,
                   outcome: ConnectOutcome) returns (msg: string)
      modifies this
      ensures created == old(created) + 1
      ensures outcome.Connects? ==>
        connections == old(connections)[host := Client(old(created), host, username, AuthOf(keyPath, password))]
        && msg == "Connected to " + host + " as " + username
      ensures outcome.ConnectFails? ==>
        connections == old(connections) && msg == "Failed to connect to " + host + ": " + outcome.message
    {
      var client := Client(created, host, username, AuthOf(keyPath, password));
      created := created + 1;
      match outcome {
        case Connects =>
          connections := connections[host := client];
          msg := "Connected to " + host + " as " + username;
        case ConnectFails(m) =>
          msg := "Failed to connect to " + host + ": " + m;
      }
    }

    /** `SSHManager.execute_command`: refuses a host without a client, and changes nothing. */
    method ExecuteCommand(host: string, command: string, outcome: ExecOutcome) returns (r: ExecReply)
      ensures r == ExecReplyOf(host in connections, host, command, outcome)
      ensures host !in connections ==> r.SuccessKey().None?
    {
      r := ExecReplyOf(host in connections, host, command, outcome);
    }
  }

  /** The three commands `deploy_to_gcloud` runs, in order. */
  function DeployCommands(projectId: string, appPath: string, serviceName: string): (cmds: seq<string>)
    ensures |cmds| == 3
  {
    [ "cd " + appPath,
      "gcloud app deploy --project " + projectId + " --quiet",
      "gcloud app services set-traffic " + serviceName + " --splits=DEPLOYED_VERSION=1" ]
  }

  /**
   * `deploy_to_gcloud`: the commands run in order and the run stops after
   * the first reply that is not a success. `run(i)` is what the i-th
   * command did on the host.
   */
  method DeployToGcloud(ssh: SSHManager, host: string, projectId: string, appPath: string, serviceName: string,
                        run: nat -> ExecOutcome) returns (results: seq<ExecReply>)
    ensures 1 <= |results| <= 3
    ensures forall i :: 0 <= i < |results| ==>
      results[i] == ExecReplyOf(host in ssh.connections, host, DeployCommands(projectId, appPath, serviceName)[i], run(i))
    ensures forall i :: 0 <= i < |results| - 1 ==> results[i].Succeeded()
    ensures |results| < 3 ==> !results[|results| - 1].Succeeded()
    ensures host !in ssh.connections ==> |results| == 1
  {
    var commands := DeployCommands(projectId, appPath, serviceName);
    results := [];
    var i := 0;
    while i < |commands|
      invariant 0 <= i <= |commands| && |results| == i
      invariant forall k :: 0 <= k < i ==>
        results[k] == ExecReplyOf(host in ssh.connections, host, commands[k], run(k))
      invariant forall k :: 0 <= k < i ==> results[k].Succeeded()
      invariant host !in ssh.connections ==> i == 0
    {
      var result := ssh.ExecuteCommand(host, commands[i], run(i));
      results := results + [result];
      if !result.Succeeded() {
        break;
      }
      i := i + 1;
    }
  }

  // -------------------------------------------------------------- GCloud

  datatype AccessConfig = AccessConfig(natIP: string)
  datatype NetworkInterface = NetworkInterface(networkIP: string, accessConfigs: seq<AccessConfig>)
  /** A Compute Engine instance as `compute_client.list` yields it. */
  datatype Instance = Instance(name: string, status: string, machineType: string,
                               networkInterfaces: seq<NetworkInterface>)

  /** Whether listing the instances of a project and zone succeeded. */
  datatype ListOutcome = Listed(instances: seq<Instance>) | ListFails(message: string)

  /** One entry of the list `list_instances` returns. */
  datatype InstanceRow =
    | InstanceInfo(name: string, status: string, machineType: string, zone: string,
                   internalIp: Option<string>, externalIp: Option<string>)
    | ListError(error: string)

  /** `s.split('/')[-1]`: the longest suffix of `s` without a '/'. */
  function LastSegment(s: string): (r: string)
    ensures |r| <= |s| && r == s[|s| - |r|..]
    ensures '/' !in r
    ensures |r| < |s| ==> s[|s| - |r| - 1] == '/'
    decreases |s|
  {
    if s == [] || s[|s| - 1] == '/' then []
    else LastSegment(s[..|s| - 1]) + [s[|s| - 1]]
  }

  /** The record built for one instance. */
  function InstanceRowOf(inst: Instance, zone: string): (r: InstanceRow)
    ensures r.InstanceInfo? && r.name == inst.name && r.status == inst.status && r.zone == zone
    ensures r.machineType == LastSegment(inst.machineType)
    ensures r.internalIp.None? <==> inst.networkInterfaces == []
    ensures r.internalIp.Some? ==> r.internalIp.value == inst.networkInterfaces[0].networkIP
    ensures r.externalIp.Some? <==>
      inst.networkInterfaces != [] && inst.networkInterfaces[0].accessConfigs != []
    ensures r.externalIp.Some? ==> r.externalIp.value == inst.networkInterfaces[0].accessConfigs[0].natIP
  {
    var nis := inst.networkInterfaces;
    InstanceInfo(
      inst.name, inst.status, LastSegment(inst.machineType), zone,
      if nis != [] then Some(nis[0].networkIP) else None,
      if nis != [] && nis[0].accessConfigs != [] then Some(nis[0].accessConfigs[0].natIP) else None)
  }

  /** One record per listed instance, in listing order. */
  function RowsOf(items: seq<Instance>, zone: string): (rows: seq<InstanceRow>)
    ensures |rows| == |items|
    ensures forall i :: 0 <= i < |items| ==> rows[i] == InstanceRowOf(items[i], zone)
  {
    seq(|items|, i requires 0 <= i < |items| => InstanceRowOf(items[i], zone))
  }

  /** `GCloudManager`: bound for its lifetime to the project it was created for. */
  class GCloudManager {
    const projectId: string

    constructor (projectId: string)
      ensures this.projectId == projectId
    {
      this.projectId := projectId;
    }

    /**
     * `GCloudManager.list_instances`; `listing(project, zone)` is what the
     * Compute client returned for that project and zone.
     */
    method ListInstances(zone: string, listing: (string, string) -> ListOutcome) returns (rows: seq<InstanceRow>)
      ensures listing(projectId, zone).ListFails? ==> rows == [ListError(listing(projectId, zone).message)]
      ensures listing(projectId, zone).Listed? ==> rows == RowsOf(listing(projectId, zone).instances, zone)
    {
      var outcome := listing(projectId, zone);
      if outcome.ListFails? {
        return [ListError(outcome.message)];
      }
      var items := outcome.instances;
      rows := [];
      var i := 0;
      while i < |items|
        invariant 0 <= i <= |items|
        invariant rows == RowsOf(items[..i], zone)
      {
        assert items[..i + 1] == items[..i] + [items[i]];
        rows := rows + [InstanceRowOf(items[i], zone)];
        i := i + 1;
      }
      assert items[..i] == items;
    }
  }

  /** The module-level `gcloud_manager`, created by the first gcloud tool call. */
  class GCloudTools {
    var manager: GCloudManager?

    constructor ()
      ensures manager == null
    {
      manager := null;
    }

    /**
     * `if not gcloud_manager: gcloud_manager = GCloudManager(project_id)`.
     * `construct` is whether building the Compute client returned or raised.
     * A raise leaves `gcloud_manager` unset, so the first project whose
     * manager is built wins.
     */
    method EnsureManager(projectId: string, construct: Result<()>) returns (r: Result<GCloudManager>)
      modifies this
      ensures old(manager) != null ==> r == Ok(old(manager)) && manager == old(manager)
      ensures old(manager) == null && construct.Raised? ==> r == Raised(construct.message) && manager == null
      ensures old(manager) == null && construct.Ok? ==>
        r.Ok? && fresh(r.value) && r.value.projectId == projectId && manager == r.value
    {
      if manager == null {
        if construct.Raised? {
          return Raised(construct.message);
        }
        manager := new GCloudManager(projectId);
      }
      r := Ok(manager);
    }

    /**
     * `gcloud_list_instances`: lists the instances of the manager's project,
     * whatever `projectId` is. A failed construction escapes the tool as
     * `Raised` and leaves no manager behind.
     */
    method GcloudListInstances(projectId: string, zone: string, construct: Result<()>,
                               listing: (string, string) -> ListOutcome) returns (r: Result<seq<InstanceRow>>)
      modifies this
      ensures old(manager) == null && construct.Raised? ==> r == Raised(construct.message) && manager == null
      ensures old(manager) != null || construct.Ok? ==>
        manager != null
        && manager.projectId == (if old(manager) != null then old(manager.projectId) else projectId)
        && r.Ok?
      ensures r.Ok? && manager != null && listing(manager.projectId, zone).ListFails? ==>
        r.value == [ListError(listing(manager.projectId, zone).message)]
      ensures r.Ok? && manager != null && listing(manager.projectId, zone).Listed? ==>
        r.value == RowsOf(listing(manager.projectId, zone).instances, zone)
    {
      var m := EnsureManager(projectId, construct);
      if m.Raised? {
        return Raised(m.message);
      }
      var rows := m.value.ListInstances(zone, listing);
      r := Ok(rows);
    }
  }
}
