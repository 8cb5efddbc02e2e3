/** The modal where the signed-in user edits their MCP configuration as
    JSON. `JSON.parse` and `JSON.stringify(_, null, 2)` are parameters, as
    are the answers of the user-config API. */
module UserConfigEditor {
  import opened Common
  import opened Schema
  import UserStore

  const InvalidJson := "JSON格式错误"
  const SavedToast := "配置已保存"
  const UnknownError := "未知错误"

  /** `mcp_config || {}`: a falsy stored value is edited as an empty object. */
  function McpOrEmpty(j: Json): (r: Json)
    ensures JsonTruthy(j) ==> r == j
    ensures !JsonTruthy(j) ==> r == JObject([])
  {
    if JsonTruthy(j) then j else JObject([])
  }

  /** `保存失败: ${err.message || '未知错误'}` */
  function FailureToast(message: string): (t: string)
    ensures message != "" ==> t == "保存失败: " + message
    ensures message == "" ==> t == "保存失败: " + UnknownError
  {
    "保存失败: " + (if message != "" then message else UnknownError)
  }

  /** What saving sends: the new `mcp_config` for an existing configuration,
      or a new configuration row. */
  datatype SaveRequest = UpdateMcp(userId: string, mcpConfig: Json) | CreateConfig(userId: string, mcpConfig: Json)

  class Editor {
    var loading: bool
    var jsonValue: string
    var jsonError: Option<string>

    constructor()
      ensures !loading && jsonValue == "" && jsonError.None?
    {
      loading := false;
      jsonValue := "";
      jsonError := None;
    }

    /** `disabled={!!jsonError || loading}` of the save button. */
    predicate SaveDisabled()
      reads this
      ensures SaveDisabled() <==> jsonError.Some? || loading
    {
      jsonError.Some? || loading
    }

    /** The effect on opening: with a user and a configuration, the text is
      the pretty-printed configuration (or `{}`) and the error is cleared;
      otherwise nothing changes. */
    method OnOpen(open: bool, store: UserStore.UserStore, pretty: Json -> string)
      modifies this
      ensures open && store.userInfo.Some? && store.userConfig.Some? ==>
        jsonValue == pretty(McpOrEmpty(store.userConfig.value.mcpConfig)) && jsonError.None?
      ensures !(open && store.userInfo.Some? && store.userConfig.Some?) ==>
        jsonValue == old(jsonValue) && jsonError == old(jsonError)
      ensures loading == old(loading)
    {
      if open && store.userInfo.Some? && store.userConfig.Some? {
        jsonValue := pretty(McpOrEmpty(store.userConfig.value.mcpConfig));
        jsonError := None;
      }
    }

    /** `handleEditorChange`: an empty or missing value empties the text and
      leaves the error as it was; any other value becomes the text, and the
      error says whether it parses. */
    method EditorChange(value: Option<string>, parse: string -> Outcome<Json>)
      modifies this
      ensures value.None? || value.value == "" ==> jsonValue == "" && jsonError == old(jsonError)
      ensures value.Some? && value.value != "" ==> (jsonValue == value.value
        && (jsonError.None? <==> parse(value.value).Done?)
        && (jsonError.Some? ==> jsonError.value == InvalidJson))
      ensures loading == old(loading)
    {
      if value.None? || value.value == "" {
        jsonValue := "";
        return;
      }
      jsonValue := value.value;
      if parse(value.value).Done? {
        jsonError := None;
      } else {
        jsonError := Some(InvalidJson);
      }
    }

    /** `handleSave`: nothing while the text is marked invalid or nobody is
      signed in. Otherwise the text is parsed (an unparsable text, such as
      an emptied editor, fails with a message and sends nothing); the
      configuration is updated when one exists and created otherwise; the
      answer goes into the store and the modal closes, or a failure message
      is shown. Loading is over either way. */
    method HandleSave(store: UserStore.UserStore, parse: string -> Outcome<Json>, answer: Outcome<UserConfig>)
      returns (request: Option<SaveRequest>, toast: Option<string>, closed: bool)
      modifies this, store
      ensures old(jsonError).Some? || old(store.userInfo).None? ==>
        (request.None? && toast.None? && !closed && loading == old(loading) && store.userConfig == old(store.userConfig))
      ensures old(jsonError).None? && old(store.userInfo).Some? && parse(old(jsonValue)).Threw? ==>
        (request.None? && toast == Some(FailureToast(parse(old(jsonValue)).message)) && !closed
        && store.userConfig == old(store.userConfig))
      ensures request.Some? ==> (old(jsonError).None? && old(store.userInfo).Some? && parse(old(jsonValue)).Done?)
      ensures old(jsonError).None? && old(store.userInfo).Some? && parse(old(jsonValue)).Done? ==>
        request == Some(if old(store.userConfig).Some?
          then UpdateMcp(old(store.userInfo).value.id, parse(old(jsonValue)).result)
          else CreateConfig(old(store.userInfo).value.id, parse(old(jsonValue)).result))
      ensures request.Some? && answer.Done? ==> store.userConfig == Some(answer.result) && toast == Some(SavedToast) && closed
      ensures request.Some? && answer.Threw? ==>
        (store.userConfig == old(store.userConfig) && toast == Some(FailureToast(answer.message)) && !closed)
      ensures old(jsonError).None? && old(store.userInfo).Some? ==> !loading
      ensures jsonValue == old(jsonValue) && jsonError == old(jsonError)
      ensures store.userInfo == old(store.userInfo)
    {
      if jsonError.Some? || store.userInfo.None? {
        return None, None, false;
      }
      loading := true;
      var parsed := parse(jsonValue);
      if parsed.Threw? {
        loading := false;
        return None, Some(FailureToast(parsed.message)), false;
      }
      if store.userConfig.Some? {
        request := Some(UpdateMcp(store.userInfo.value.id, parsed.result));
      } else {
        request := Some(CreateConfig(store.userInfo.value.id, parsed.result));
      }
      if answer.Done? {
        store.SetUserConfig(Some(answer.result));
        toast, closed := Some(SavedToast), true;
      } else {
        toast, closed := Some(FailureToast(answer.message)), false;
      }
      loading := false;
    }
  }
}
