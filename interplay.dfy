/** Facts that connect app.js with mock-api.js: which of the application's own
    requests the development stub answers, and which it hands to the network. */
module Interplay {
  import opened Wrappers
  import Text
  import opened AppConfig
  import opened MockApi

  /** Every request of app.js passes `method: 'POST'`. */
  const Post: FetchOptions := Options(Some("POST"))

  // The request URLs split into literals short enough to be read character by character.

  lemma LocationUrlPieces()
    ensures LocationUrl == "https://api.operator.com/camara" + "/device-location/" + "v1/location"
  {
  }

  lemma QodUrlPieces()
    ensures QodSessionsUrl == "https://api.operator.com" + "/camara/" + ['q'] + "od/v1/sessions"
  {
  }

  lemma SmsUrlPieces()
    ensures SmsMessagesUrl == "https://api.operator.com" + "/camara/sms/v1/messa" + ['g'] + "es"
  {
  }

  lemma EmergencyUrlPieces()
    ensures EmergencyDataUrl == "http" + ['s'] + ("://your-emergency-" + "backend.com/api" + "/emergency-data")
    ensures EmergencyDataUrl == "https://your-emergency-backend.com/api" + "/emergency-data" + ""
  {
  }

  // One lemma per (URL, fragment) pair: each reads a few characters of one URL.

  lemma QodUrlLacksLocation()
    ensures !Text.Contains(QodSessionsUrl, "/device-location/")
  {
    QodUrlPieces();
    Text.AbsentCharExcludes(QodSessionsUrl, "/device-location/", 8);   // no 'l'
  }

  lemma QodUrlLacksStatus()
    ensures !Text.Contains(QodSessionsUrl, "/device-status/")
  {
    QodUrlPieces();
    Text.AbsentCharExcludes(QodSessionsUrl, "/device-status/", 12);   // no 'u'
  }

  lemma QodUrlLacksQodSessions()
    ensures !Text.Contains(QodSessionsUrl, "/qod/sessions")
  {
    QodUrlPieces();
    Text.SingleAnchor("https://api.operator.com" + "/camara/", 'q', "od/v1/sessions", "/qod/sessions", 1);
    assert QodSessionsUrl[36] != "/qod/sessions"[5];   // "/qod/v" against "/qod/s"
  }

  lemma QodUrlLacksSmsMessages()
    ensures !Text.Contains(QodSessionsUrl, "/sms/messages")
  {
    QodUrlPieces();
    Text.AbsentCharExcludes(QodSessionsUrl, "/sms/messages", 10);   // no 'g'
  }

  lemma QodUrlLacksEmergencyData()
    ensures !Text.Contains(QodSessionsUrl, "/emergency-data")
  {
    QodUrlPieces();
    Text.AbsentCharExcludes(QodSessionsUrl, "/emergency-data", 5);   // no 'g'
  }

  lemma SmsUrlLacksLocation()
    ensures !Text.Contains(SmsMessagesUrl, "/device-location/")
  {
    SmsUrlPieces();
    Text.AbsentCharExcludes(SmsMessagesUrl, "/device-location/", 8);   // no 'l'
  }

  lemma SmsUrlLacksStatus()
    ensures !Text.Contains(SmsMessagesUrl, "/device-status/")
  {
    SmsUrlPieces();
    Text.AbsentCharExcludes(SmsMessagesUrl, "/device-status/", 12);   // no 'u'
  }

  lemma SmsUrlLacksQodSessions()
    ensures !Text.Contains(SmsMessagesUrl, "/qod/sessions")
  {
    SmsUrlPieces();
    Text.AbsentCharExcludes(SmsMessagesUrl, "/qod/sessions", 1);   // no 'q'
  }

  lemma SmsUrlLacksSmsMessages()
    ensures !Text.Contains(SmsMessagesUrl, "/sms/messages")
  {
    SmsUrlPieces();
    Text.SingleAnchor("https://api.operator.com" + "/camara/sms/v1/messa", 'g', "es", "/sms/messages", 10);
    assert SmsMessagesUrl[35] != "/sms/messages"[1];   // "s/" against "/s"
  }

  lemma SmsUrlLacksEmergencyData()
    ensures !Text.Contains(SmsMessagesUrl, "/emergency-data")
  {
    SmsUrlPieces();
    Text.AbsentCharExcludes(SmsMessagesUrl, "/emergency-data", 9);   // no 'y'
  }

  lemma EmergencyUrlLacksLocation()
    ensures !Text.Contains(EmergencyDataUrl, "/device-location/")
  {
    EmergencyUrlPieces();
    Text.AbsentCharExcludes(EmergencyDataUrl, "/device-location/", 8);   // no 'l'
  }

  lemma EmergencyUrlLacksStatus()
    ensures !Text.Contains(EmergencyDataUrl, "/device-status/")
  {
    EmergencyUrlPieces();
    Text.AbsentCharExcludes(EmergencyDataUrl, "/device-status/", 3);   // no 'v'
  }

  lemma EmergencyUrlLacksQodSessions()
    ensures !Text.Contains(EmergencyDataUrl, "/qod/sessions")
  {
    EmergencyUrlPieces();
    Text.AbsentCharExcludes(EmergencyDataUrl, "/qod/sessions", 1);   // no 'q'
  }

  lemma EmergencyUrlLacksSmsMessages()
    ensures !Text.Contains(EmergencyDataUrl, "/sms/messages")
  {
    EmergencyUrlPieces();
    Text.SingleAnchor("http", 's', "://your-emergency-" + "backend.com/api" + "/emergency-data", "/sms/messages", 1);
    assert EmergencyDataUrl[3] != "/sms/messages"[0];   // 'p' against '/'
  }

  lemma EmergencyUrlHasEmergencyData()
    ensures Text.Contains(EmergencyDataUrl, "/emergency-data")
  {
    EmergencyUrlPieces();
    Text.OccursBetween("https://your-emergency-backend.com/api", "/emergency-data", "");
  }

  /** The QoD URL contains none of the stub's fragments: in particular its path
      is `/qod/v1/sessions`, which does not include `/qod/sessions`. */
  lemma QodUrlMatchesNoFragment()
    ensures forall i | 0 <= i < |Rules| :: !Text.Contains(QodSessionsUrl, Rules[i].fragment)
  {
    QodUrlLacksLocation();
    QodUrlLacksStatus();
    QodUrlLacksQodSessions();
    QodUrlLacksSmsMessages();
    QodUrlLacksEmergencyData();
  }

  /** The SMS URL contains none of the stub's fragments: its path `/sms/v1/messages`
      does not include `/sms/messages`. */
  lemma SmsUrlMatchesNoFragment()
    ensures forall i | 0 <= i < |Rules| :: !Text.Contains(SmsMessagesUrl, Rules[i].fragment)
  {
    SmsUrlLacksLocation();
    SmsUrlLacksStatus();
    SmsUrlLacksQodSessions();
    SmsUrlLacksSmsMessages();
    SmsUrlLacksEmergencyData();
  }

  /** `requestQoD` is never answered by the stub. */
  lemma QodRequestPassesThrough()
    ensures InterceptedFetch(QodSessionsUrl, Post) == PassThrough
  {
    QodUrlMatchesNoFragment();
    UnmatchedPassesThrough(Rules, QodSessionsUrl, Post);
  }

  /** `sendEmergencySMS` is never answered by the stub. */
  lemma SmsRequestPassesThrough()
    ensures InterceptedFetch(SmsMessagesUrl, Post) == PassThrough
  {
    SmsUrlMatchesNoFragment();
    UnmatchedPassesThrough(Rules, SmsMessagesUrl, Post);
  }

  /** `getUserLocation`'s CAMARA call is answered by the first rule. */
  lemma LocationRequestIsMocked()
    ensures InterceptedFetch(LocationUrl, Post) == Mocked(DeviceLocationMock)
  {
    LocationUrlPieces();
    Text.OccursBetween("https://api.operator.com/camara", "/device-location/", "v1/location");
    FirstFiringRuleAnswers(Rules, LocationUrl, Post, 0);
  }

  /** `fetchEmergencyData` falls through the first four rules and is answered by
      the last one. */
  lemma EmergencyRequestIsMocked()
    ensures InterceptedFetch(EmergencyDataUrl, Post) == Mocked(EmergencyDataMock)
  {
    EmergencyUrlLacksLocation();
    EmergencyUrlLacksStatus();
    EmergencyUrlLacksQodSessions();
    EmergencyUrlLacksSmsMessages();
    EmergencyUrlHasEmergencyData();
    FirstFiringRuleAnswers(Rules, EmergencyDataUrl, Post, 4);
  }
}
