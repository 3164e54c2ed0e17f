/** The configuration values the core reads, at their default settings. */
module Config {

  /** The main topic events are published to and consumed from. */
  const TOPIC: string := "web-activity"

  /** The dead-letter topic that failed messages are diverted to. */
  const DLQ_TOPIC: string := "web-activity-dlq"

  /** The shared secret a dashboard socket must present to authenticate. */
  const DASHBOARD_TOKEN: string := "admin123"
}
