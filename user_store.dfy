/** The client store holding the signed-in user's identity and their
    stored configuration. */
module UserStore {
  import opened Common
  import opened Schema

  /** `{ ...userConfig, mcp_config }` when there is a configuration; without
      one there is nothing to update. */
  function WithMcpConfig(config: Option<UserConfig>, mcpConfig: Json): (r: Option<UserConfig>)
    ensures r.None? <==> config.None?
    ensures r.Some? ==> r.value.mcpConfig == mcpConfig
    ensures r.Some? ==> r.value.userId == config.value.userId && r.value.createdAt == config.value.createdAt
  {
    if config.None? then None else Some(config.value.(mcpConfig := mcpConfig))
  }

  /** Only the last of two updates counts. */
  lemma WithMcpConfigLastWins(config: Option<UserConfig>, a: Json, b: Json)
    ensures WithMcpConfig(WithMcpConfig(config, a), b) == WithMcpConfig(config, b)
  {
    if config.Some? {
      assert WithMcpConfig(config, a).value.(mcpConfig := b) == config.value.(mcpConfig := b);
    }
  }

  class UserStore {
    var userInfo: Option<User>
    var userConfig: Option<UserConfig>

    /** Both fields start out null. */
    constructor()
      ensures userInfo.None? && userConfig.None?
    {
      userInfo := None;
      userConfig := None;
    }

    /** `setUserInfo`: replaces the user and nothing else. */
    method SetUserInfo(info: Option<User>)
      modifies this
      ensures userInfo == info && userConfig == old(userConfig)
    {
      userInfo := info;
    }

    /** `setUserConfig`: replaces the configuration and nothing else. */
    method SetUserConfig(config: Option<UserConfig>)
      modifies this
      ensures userConfig == config && userInfo == old(userInfo)
    {
      userConfig := config;
    }

    /** `updateMcpConfig`: returns the state unchanged while there is no
      configuration, otherwise replaces only its `mcp_config`. */
    method UpdateMcpConfig(mcpConfig: Json)
      modifies this
      ensures userConfig == WithMcpConfig(old(userConfig), mcpConfig)
      ensures userInfo == old(userInfo)
    {
      if userConfig.None? {
        return;
      }
      userConfig := Some(userConfig.value.(mcpConfig := mcpConfig));
    }
  }
}
