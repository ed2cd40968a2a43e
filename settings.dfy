/** The `gcore` configuration group: seven optional settings, each possibly unset. */
module Settings {
  import opened Wrappers

  /** The names of the settings, as the configuration group and the client spell them. */
  datatype FieldName =
    | ApiUrl | AccessToken | RefreshToken | ProjectId | RegionId | StackId | ResourceName

  function Key(f: FieldName): string {
    match f
    case ApiUrl => "api_url"
    case AccessToken => "access_token"
    case RefreshToken => "refresh_token"
    case ProjectId => "project_id"
    case RegionId => "region_id"
    case StackId => "stack_id"
    case ResourceName => "resource_name"
  }

  /** The configuration values the collector reads; `None` is an unset option.
      `project_id` and `region_id` are integer options, the rest string options. */
  datatype Conf = Conf(
    apiUrl: Option<string>,
    accessToken: Option<string>,
    refreshToken: Option<string>,
    projectId: Option<int>,
    regionId: Option<int>,
    stackId: Option<string>,
    resourceName: Option<string>)

  /** The value of one setting, string- or integer-typed. */
  datatype Setting = Text(text: Option<string>) | Number(number: Option<int>)
  {
    predicate IsSet() {
      match this
      case Text(t) => t.Some?
      case Number(n) => n.Some?
    }
  }

  /** `getattr(conf, name)`. */
  function Lookup(conf: Conf, f: FieldName): Setting {
    match f
    case ApiUrl => Text(conf.apiUrl)
    case AccessToken => Text(conf.accessToken)
    case RefreshToken => Text(conf.refreshToken)
    case ProjectId => Number(conf.projectId)
    case RegionId => Number(conf.regionId)
    case StackId => Text(conf.stackId)
    case ResourceName => Text(conf.resourceName)
  }

  predicate Present(conf: Conf, f: FieldName) {
    Lookup(conf, f).IsSet()
  }
}
