/**
 * The provider's configuration table: request paths of the Jenkins API and,
 * once the provider is set up, the server address, the credentials and the
 * crumb.
 */
module JenkinsConf {
  import opened Wrappers
  import opened Model

  const JenkinsServerAddress := "JenkinsServerAddress"
  const JenkinsUser := "JenkinsUser"
  const JenkinsToken := "JenkinsToken"
  const CreateJobURI := "CreateJobURI"
  const UpdateJobURI := "UpdateJobURI"
  /** The key name keeps the lower-case `j` of the original constant. */
  const StopJobURI := "StopjobURI"
  const CancelQueueItemURI := "CancelQueueItemURI"
  const ScriptURI := "ScriptURI"
  const DeleteBuildURI := "DeleteBuildURI"
  const GetCrumbURI := "GetCrumbURI"
  const JenkinsCrumbHeader := "JenkinsCrumbHeader"
  const JenkinsCrumb := "JenkinsCrumb"
  const JenkinsJobBuildURI := "JenkinsJobBuildURI"
  const JenkinsJobInfoURI := "JenkinsJobInfoURI"
  const JenkinsSetCredURI := "JenkinsSetCredURI"
  const JenkinsDeleteCredURI := "JenkinsDeleteCredURI"
  const JenkinsBuildInfoURI := "JenkinsBuildInfoURI"
  const JenkinsBuildLogURI := "JenkinsBuildLogURI"
  const JenkinsJobBuildWithParamsURI := "JenkinsJobBuildWithParamsURI"

  /** The keys the table starts with: the request paths. */
  const URIKeys: set<string> := {
    CreateJobURI, UpdateJobURI, StopJobURI, CancelQueueItemURI, DeleteBuildURI, GetCrumbURI,
    JenkinsJobBuildURI, JenkinsJobBuildWithParamsURI, JenkinsJobInfoURI, JenkinsSetCredURI,
    JenkinsDeleteCredURI, JenkinsBuildInfoURI, JenkinsBuildLogURI, ScriptURI
  }

  /** The keys that are only present once set: the server and its credentials. */
  const SetupKeys: set<string> := {JenkinsServerAddress, JenkinsUser, JenkinsToken, JenkinsCrumbHeader, JenkinsCrumb}

  /** The table the provider starts with. */
  function InitialTable(): map<string, string> {
    map[
      CreateJobURI := "/createItem",
      UpdateJobURI := "/job/%s/config.xml",
      StopJobURI := "/job/%s/lastBuild/stop",
      CancelQueueItemURI := "/queue/cancelItem?id=%d",
      DeleteBuildURI := "/job/%s/lastBuild/doDelete",
      GetCrumbURI := "/crumbIssuer/api/xml?xpath=concat(//crumbRequestField,\":\",//crumb)",
      JenkinsJobBuildURI := "/job/%s/build",
      JenkinsJobBuildWithParamsURI := "/job/%s/buildWithParameters",
      JenkinsJobInfoURI := "/job/%s/api/json",
      JenkinsSetCredURI := "/credentials/store/system/domain/_/createCredentials",
      JenkinsDeleteCredURI := "/credentials/store/system/domain/_/credential/%s/doDelete",
      JenkinsBuildInfoURI := "/job/%s/lastBuild/api/json",
      JenkinsBuildLogURI := "/job/%s/lastBuild/timestamps/?elapsed=HH'h'mm'm'ss's'S'ms'&appendLog",
      ScriptURI := "/scriptText"
    ]
  }

  /** The configuration table, read and written by key. */
  class JenkinsConfig {
    var entries: map<string, string>

    constructor ()
      ensures entries == InitialTable()
    {
      entries := InitialTable();
    }

    /** `Get`: the value under `key`, or "" and the not-found error. */
    function Get(key: string): (r: (string, Option<Error>))
      reads this
      ensures r.1.None? <==> key in entries
      ensures r.1.None? ==> r.0 == entries[key]
      ensures r.1.Some? ==> r.0 == "" && r.1.value == ConfigItemNotFound
    {
      if key in entries then (entries[key], None) else ("", Some(ConfigItemNotFound))
    }

    /** `Set`: store `value` under `key`, adding or replacing it. */
    method Set(key: string, value: string)
      modifies this
      ensures entries == old(entries)[key := value]
      ensures Get(key) == (value, None)
      ensures forall k :: k != key ==> Get(k) == old(Get(k))
    {
      entries := entries[key := value];
    }
  }

  /** The initial table holds exactly the request paths. */
  lemma InitialTableKeys()
    ensures InitialTable().Keys == URIKeys
  {
  }

  /** The server address, the credentials and the crumb are absent until set. */
  lemma SetupKeysAbsent(key: string)
    requires key in SetupKeys
    ensures key !in InitialTable()
  {
    InitialTableKeys();
  }
}
