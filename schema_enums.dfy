/** The nine PostgreSQL enum types of the schema (utils/db/schema.ts:19-27).
    Each is a closed datatype; `Label` is the value's text in the database
    and `Parse*` is the database's text-to-enum conversion, which rejects
    every string that is not one of the declared labels. */
module SchemaEnums {
  import opened Wrappers

  datatype UserStatus = Active | Inactive | Suspended {
    function Label(): string {
      match this
      case Active => "active"
      case Inactive => "inactive"
      case Suspended => "suspended"
    }
  }

  function ParseUserStatus(s: string): (r: Option<UserStatus>)
    ensures forall x: UserStatus :: x.Label() == s <==> r == Some(x)
  {
    match s
    case "active" => Some(UserStatus.Active)
    case "inactive" => Some(UserStatus.Inactive)
    case "suspended" => Some(UserStatus.Suspended)
    case _ => None
  }

  datatype SubscriptionStatus = Active | Canceled | PastDue | Trialing | Incomplete {
    function Label(): string {
      match this
      case Active => "active"
      case Canceled => "canceled"
      case PastDue => "past_due"
      case Trialing => "trialing"
      case Incomplete => "incomplete"
    }
  }

  function ParseSubscriptionStatus(s: string): (r: Option<SubscriptionStatus>)
    ensures forall x: SubscriptionStatus :: x.Label() == s <==> r == Some(x)
  {
    match s
    case "active" => Some(SubscriptionStatus.Active)
    case "canceled" => Some(SubscriptionStatus.Canceled)
    case "past_due" => Some(SubscriptionStatus.PastDue)
    case "trialing" => Some(SubscriptionStatus.Trialing)
    case "incomplete" => Some(SubscriptionStatus.Incomplete)
    case _ => None
  }

  datatype CompanyStatus = Active | Inactive | Blacklist {
    function Label(): string {
      match this
      case Active => "active"
      case Inactive => "inactive"
      case Blacklist => "blacklist"
    }
  }

  function ParseCompanyStatus(s: string): (r: Option<CompanyStatus>)
    ensures forall x: CompanyStatus :: x.Label() == s <==> r == Some(x)
  {
    match s
    case "active" => Some(CompanyStatus.Active)
    case "inactive" => Some(CompanyStatus.Inactive)
    case "blacklist" => Some(CompanyStatus.Blacklist)
    case _ => None
  }

  datatype CampaignType = Email | Form | Mixed {
    function Label(): string {
      match this
      case Email => "email"
      case Form => "form"
      case Mixed => "mixed"
    }
  }

  function ParseCampaignType(s: string): (r: Option<CampaignType>)
    ensures forall x: CampaignType :: x.Label() == s <==> r == Some(x)
  {
    match s
    case "email" => Some(CampaignType.Email)
    case "form" => Some(CampaignType.Form)
    case "mixed" => Some(CampaignType.Mixed)
    case _ => None
  }

  datatype CampaignStatus = Draft | Active | Paused | Completed | Canceled {
    function Label(): string {
      match this
      case Draft => "draft"
      case Active => "active"
      case Paused => "paused"
      case Completed => "completed"
      case Canceled => "canceled"
    }
  }

  function ParseCampaignStatus(s: string): (r: Option<CampaignStatus>)
    ensures forall x: CampaignStatus :: x.Label() == s <==> r == Some(x)
  {
    match s
    case "draft" => Some(CampaignStatus.Draft)
    case "active" => Some(CampaignStatus.Active)
    case "paused" => Some(CampaignStatus.Paused)
    case "completed" => Some(CampaignStatus.Completed)
    case "canceled" => Some(CampaignStatus.Canceled)
    case _ => None
  }

  datatype ActivityType = Email | Form | Call | Meeting | Note {
    function Label(): string {
      match this
      case Email => "email"
      case Form => "form"
      case Call => "call"
      case Meeting => "meeting"
      case Note => "note"
    }
  }

  function ParseActivityType(s: string): (r: Option<ActivityType>)
    ensures forall x: ActivityType :: x.Label() == s <==> r == Some(x)
  {
    match s
    case "email" => Some(ActivityType.Email)
    case "form" => Some(ActivityType.Form)
    case "call" => Some(ActivityType.Call)
    case "meeting" => Some(ActivityType.Meeting)
    case "note" => Some(ActivityType.Note)
    case _ => None
  }

  datatype ActivityStatus =
    | Pending | Processing | Sent | Delivered | Opened | Clicked | Replied | Bounced | Failed
  {
    function Label(): string {
      match this
      case Pending => "pending"
      case Processing => "processing"
      case Sent => "sent"
      case Delivered => "delivered"
      case Opened => "opened"
      case Clicked => "clicked"
      case Replied => "replied"
      case Bounced => "bounced"
      case Failed => "failed"
    }
  }

  function ParseActivityStatus(s: string): (r: Option<ActivityStatus>)
    ensures forall x: ActivityStatus :: x.Label() == s <==> r == Some(x)
  {
    match s
    case "pending" => Some(ActivityStatus.Pending)
    case "processing" => Some(ActivityStatus.Processing)
    case "sent" => Some(ActivityStatus.Sent)
    case "delivered" => Some(ActivityStatus.Delivered)
    case "opened" => Some(ActivityStatus.Opened)
    case "clicked" => Some(ActivityStatus.Clicked)
    case "replied" => Some(ActivityStatus.Replied)
    case "bounced" => Some(ActivityStatus.Bounced)
    case "failed" => Some(ActivityStatus.Failed)
    case _ => None
  }

  datatype TemplateType = Email | Form | Subject {
    function Label(): string {
      match this
      case Email => "email"
      case Form => "form"
      case Subject => "subject"
    }
  }

  function ParseTemplateType(s: string): (r: Option<TemplateType>)
    ensures forall x: TemplateType :: x.Label() == s <==> r == Some(x)
  {
    match s
    case "email" => Some(TemplateType.Email)
    case "form" => Some(TemplateType.Form)
    case "subject" => Some(TemplateType.Subject)
    case _ => None
  }

  datatype LogLevel = Debug | Info | Warning | Error | Critical {
    function Label(): string {
      match this
      case Debug => "DEBUG"
      case Info => "INFO"
      case Warning => "WARNING"
      case Error => "ERROR"
      case Critical => "CRITICAL"
    }
  }

  function ParseLogLevel(s: string): (r: Option<LogLevel>)
    ensures forall x: LogLevel :: x.Label() == s <==> r == Some(x)
  {
    match s
    case "DEBUG" => Some(LogLevel.Debug)
    case "INFO" => Some(LogLevel.Info)
    case "WARNING" => Some(LogLevel.Warning)
    case "ERROR" => Some(LogLevel.Error)
    case "CRITICAL" => Some(LogLevel.Critical)
    case _ => None
  }
}
