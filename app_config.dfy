/** The `config` object of app.js and the request URLs the application builds
    from it. */
module AppConfig {

  const DeviceLocationApi: string := "https://api.operator.com/camara/device-location/v1"
  const DeviceStatusApi: string := "https://api.operator.com/camara/device-status/v1"
  const QodApi: string := "https://api.operator.com/camara/qod/v1"
  const SmsApi: string := "https://api.operator.com/camara/sms/v1"
  const EmergencyBackend: string := "https://your-emergency-backend.com/api"
  const OfflineCacheKey: string := "emergency-data-cache"

  /** `getUserLocation` posts here. */
  const LocationUrl: string := DeviceLocationApi + "/location"
  /** `requestQoD` posts here. */
  const QodSessionsUrl: string := QodApi + "/sessions"
  /** `sendEmergencySMS` posts here. */
  const SmsMessagesUrl: string := SmsApi + "/messages"
  /** `fetchEmergencyData` posts here. */
  const EmergencyDataUrl: string := EmergencyBackend + "/emergency-data"
}
