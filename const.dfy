/** The integration's fixed names: its domain, the keys of the
    configuration record and the reason and error codes of its flows. */
module Const {

  const Domain := "compreface"

  const ConfHost := "host"
  const ConfPort := "port"
  const ConfRecognizeApiKey := "recognize_api_key"
  const ConfVerifyApiKey := "verify_api_key"
  const ConfDetectApiKey := "detect_api_key"

  /** The entry-data key of the temporary image directory. The sensor
      platform reads this key, but the constants file does not define its
      name; this one is assumed. */
  const ConfImageTempDir := "image_temp_dir"

  /** The option that lists the cameras feeding the recognition sensors. */
  const RecognitionCameraDevices := "recognition_camera_devices"

  /** The key of the SDK client in the integration's shared data. */
  const CompreFaceSlot := "compre_face"

  const SingleInstanceAllowed := "single_instance_allowed"
  const ValueError := "value_error"
}
