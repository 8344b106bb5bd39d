/** State messages of the agent. */
module Messages {
  import opened Options
  import opened Texts
  import opened JsonText

  /** `None` is a missing property; an empty text stands for a missing or empty string. */
  datatype StateMsg = StateMsg(
    online: Option<Json>,
    agentVer: Text,
    androidId: Text,
    caps: Option<Json>,
    volatile: Option<Json>,
    ts: Text)

  /** JavaScript truth of a parsed value. */
  predicate Truthy(v: Json) {
    match v
    case Null => false
    case Bool(b) => b
    case Num(t) => t != [48]
    case Str(s) => s != []
    case _ => true
  }
}
