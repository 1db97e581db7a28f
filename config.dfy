/** Device identity: the key check of `load_config` in main.py and the topic
    set and client id that both scripts derive from the machine id. */
module Config {
  import opened Values

  /** What reading and decoding `config.json` produced. */
  datatype ConfigRead =
    | OpenFailed                 // OSError: the file is missing
    | DecodeFailed(detail: string) // ValueError from ujson.load
    | Parsed(value: Json)

  const RequiredKeys: seq<string> := ["wifi_ssid", "wifi_password", "machine_id", "mqtt_broker"]

  /** Every required key passes `key in config_data`. */
  predicate Accepts(j: Json)
  {
    forall i :: 0 <= i < |RequiredKeys| ==> Contains(j, RequiredKeys[i]) == Ok(true)
  }

  /** `load_config()`: the decoded record if every required key is in it,
      `None` for a missing file, a decoding error, a missing key or a value
      that `in` cannot search. */
  method LoadConfig(read: ConfigRead) returns (config: Option<Json>)
    ensures config.Some? <==> read.Parsed? && Accepts(read.value)
    ensures config.Some? ==> config.value == read.value
  {
    if !read.Parsed? {
      return None;
    }
    var data := read.value;
    for i := 0 to |RequiredKeys|
      invariant forall k :: 0 <= k < i ==> Contains(data, RequiredKeys[k]) == Ok(true)
    {
      var present := Contains(data, RequiredKeys[i]);
      if present != Ok(true) {
        return None;
      }
    }
    return Some(data);
  }

  /** For the usual case, a JSON object, the check is: all four keys are present. */
  lemma AcceptsObject(fields: map<string, Json>)
    ensures Accepts(JObject(fields)) <==>
      "wifi_ssid" in fields && "wifi_password" in fields && "machine_id" in fields && "mqtt_broker" in fields
  {
    if "wifi_ssid" in fields && "wifi_password" in fields && "machine_id" in fields && "mqtt_broker" in fields {
      forall i | 0 <= i < |RequiredKeys| ensures Contains(JObject(fields), RequiredKeys[i]) == Ok(true) {
        assert RequiredKeys[i] in ["wifi_ssid", "wifi_password", "machine_id", "mqtt_broker"];
      }
    }
    if Accepts(JObject(fields)) {
      assert Contains(JObject(fields), RequiredKeys[0]) == Ok(true);
      assert Contains(JObject(fields), RequiredKeys[1]) == Ok(true);
      assert Contains(JObject(fields), RequiredKeys[2]) == Ok(true);
      assert Contains(JObject(fields), RequiredKeys[3]) == Ok(true);
    }
  }

  /** `in` also searches a list, for the key as an element: a list holding
      the four key names passes the check. */
  lemma AcceptsList(items: seq<Json>)
    ensures Accepts(JArray(items)) <==>
      JStr("wifi_ssid") in items && JStr("wifi_password") in items
      && JStr("machine_id") in items && JStr("mqtt_broker") in items
  {
    var x := JArray(items);
    if JStr("wifi_ssid") in items && JStr("wifi_password") in items
       && JStr("machine_id") in items && JStr("mqtt_broker") in items {
      forall i | 0 <= i < |RequiredKeys| ensures Contains(x, RequiredKeys[i]) == Ok(true) {
        assert RequiredKeys[i] in ["wifi_ssid", "wifi_password", "machine_id", "mqtt_broker"];
      }
    }
    if Accepts(x) {
      assert Contains(x, RequiredKeys[0]) == Ok(true);
      assert Contains(x, RequiredKeys[1]) == Ok(true);
      assert Contains(x, RequiredKeys[2]) == Ok(true);
      assert Contains(x, RequiredKeys[3]) == Ok(true);
    }
  }

  /** And a string, for the key as a substring: a string in which the four
      key names occur passes the check. */
  lemma AcceptsText(text: string)
    ensures Accepts(JStr(text)) <==>
      IsInfix("wifi_ssid", text) && IsInfix("wifi_password", text)
      && IsInfix("machine_id", text) && IsInfix("mqtt_broker", text)
  {
    var x := JStr(text);
    if IsInfix("wifi_ssid", text) && IsInfix("wifi_password", text)
       && IsInfix("machine_id", text) && IsInfix("mqtt_broker", text) {
      forall i | 0 <= i < |RequiredKeys| ensures Contains(x, RequiredKeys[i]) == Ok(true) {
        assert RequiredKeys[i] in ["wifi_ssid", "wifi_password", "machine_id", "mqtt_broker"];
      }
    }
    if Accepts(x) {
      assert Contains(x, RequiredKeys[0]) == Ok(true);
      assert Contains(x, RequiredKeys[1]) == Ok(true);
      assert Contains(x, RequiredKeys[2]) == Ok(true);
      assert Contains(x, RequiredKeys[3]) == Ok(true);
    }
  }

  /** Numbers, booleans and null are never accepted (`in` raises `TypeError` on them). */
  lemma AcceptsOnlySearchable(j: Json)
    requires Accepts(j)
    ensures j.JObject? || j.JArray? || j.JStr?
  {
    assert Contains(j, RequiredKeys[0]) == Ok(true);
  }

  // ---------------------------------------------------------------------------
  // Topics

  /** The four MQTT topics of one machine. */
  datatype Topics = Topics(trigger: string, status: string, confirm: string, health: string)

  const TopicPrefix: string := "vending/machine/"

  /** `f"vending/machine/{MACHINE_ID}/..."` for the four suffixes. */
  function TopicsFor(id: string): Topics
  {
    Topics(TopicPrefix + id + "/trigger", TopicPrefix + id + "/status",
           TopicPrefix + id + "/confirm", TopicPrefix + id + "/health")
  }

  /** `f"vending_{MACHINE_ID}"`. */
  function ClientId(id: string): string
  {
    "vending_" + id
  }

  predicate Distinct(t: Topics)
  {
    && t.trigger != t.status && t.trigger != t.confirm && t.trigger != t.health
    && t.status != t.confirm && t.status != t.health && t.confirm != t.health
  }

  /** The four topics of a machine are pairwise different, so commands,
      status, confirmations and health records never share a channel. */
  lemma TopicsDistinct(id: string)
    ensures Distinct(TopicsFor(id))
  {
    var t := TopicsFor(id);
    var n := |TopicPrefix + id|;
    assert t.status[n + 6] == 's' && t.health[n + 6] == 'h';
    assert t.trigger[n + 7] == 'r' && t.confirm[n + 7] == 'm';
  }

  lemma Cancel(p: string, a: string, b: string, s: string)
    requires p + a + s == p + b + s
    ensures a == b
  {
    assert |a| == |b|;
    assert a == (p + a + s)[|p|..|p| + |a|];
    assert b == (p + b + s)[|p|..|p| + |b|];
  }

  /** Different machines get different topics and client ids. */
  lemma TopicsInjective(a: string, b: string)
    requires TopicsFor(a).trigger == TopicsFor(b).trigger
          || TopicsFor(a).status == TopicsFor(b).status
          || TopicsFor(a).confirm == TopicsFor(b).confirm
          || TopicsFor(a).health == TopicsFor(b).health
          || ClientId(a) == ClientId(b)
    ensures a == b
  {
    if TopicsFor(a).trigger == TopicsFor(b).trigger {
      Cancel(TopicPrefix, a, b, "/trigger");
    } else if TopicsFor(a).status == TopicsFor(b).status {
      Cancel(TopicPrefix, a, b, "/status");
    } else if TopicsFor(a).confirm == TopicsFor(b).confirm {
      Cancel(TopicPrefix, a, b, "/confirm");
    } else if TopicsFor(a).health == TopicsFor(b).health {
      Cancel(TopicPrefix, a, b, "/health");
    } else {
      Cancel("vending_", a, b, "");
    }
  }

  /** `str(config['machine_id'])` for the values a JSON file can hold; lists
      and objects get a fixed text (their rendering is not modelled). */
  function IdText(j: Json): string
  {
    match j
    case JStr(s) => s
    case JInt(i) => ShowInt(i)
    case JBool(b) => if b then "True" else "False"
    case JNull => "None"
    case JArray(_) => "[...]"
    case JObject(_) => "{...}"
  }
}
