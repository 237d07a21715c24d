/** Facts that connect the request URLs of app.js with the routing of
    service-worker.js: the operator's APIs bypass the worker, and the
    emergency backend's answers are never cached by it. */
module WorkerInterplay {
  import Text
  import opened AppConfig
  import opened ServiceWorker

  lemma LocationUrlAroundCamara()
    ensures LocationUrl == "https://api.operator.com" + "/camara/" + "device-location/v1/location"
  {
  }

  lemma QodUrlAroundCamara()
    ensures QodSessionsUrl == "https://api.operator.com" + "/camara/" + "qod/v1/sessions"
  {
  }

  lemma SmsUrlAroundCamara()
    ensures SmsMessagesUrl == "https://api.operator.com" + "/camara/" + "sms/v1/messages"
  {
  }

  lemma EmergencyUrlAroundApi()
    ensures EmergencyDataUrl == "https://your-emergency-backend.com" + "/api/" + "emergency-data"
  {
  }

  /** Every request app.js sends to the operator's CAMARA APIs goes straight to
      the network, whatever the worker has cached. */
  lemma CamaraRequestsBypassWorker(storage: seq<NamedCache>, req: Request, net: NetOutcome)
    requires req.url in [LocationUrl, QodSessionsUrl, SmsMessagesUrl]
    ensures HandleFetch(storage, req, net) == NotIntercepted
  {
    if req.url == LocationUrl {
      LocationUrlAroundCamara();
      Text.OccursBetween("https://api.operator.com", BypassFragment, "device-location/v1/location");
    } else if req.url == QodSessionsUrl {
      QodUrlAroundCamara();
      Text.OccursBetween("https://api.operator.com", BypassFragment, "qod/v1/sessions");
    } else {
      SmsUrlAroundCamara();
      Text.OccursBetween("https://api.operator.com", BypassFragment, "sms/v1/messages");
    }
  }

  /** The worker never stores an answer of the emergency backend, so after
      any sequence of fetches its cache holds none. */
  lemma EmergencyDataNeverStored(storage: seq<NamedCache>, req: Request, net: NetOutcome)
    requires req.url == EmergencyDataUrl
    ensures !(HandleFetch(storage, req, net).Respond? && HandleFetch(storage, req, net).stored.Some?)
    ensures AfterFetch(storage, req, HandleFetch(storage, req, net)) == storage
  {
    EmergencyUrlAroundApi();
    Text.OccursBetween("https://your-emergency-backend.com", ApiFragment, "emergency-data");
  }
}
