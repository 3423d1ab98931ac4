/** The application-wide constants of config/constants.js that the core reads. */
module Constants {

  // CHARACTER_STATES
  const IDLE: string := "idle"
  const TALKING: string := "talking"
  const LISTENING: string := "listening"
  const THINKING: string := "thinking"
  const HAPPY: string := "happy"
  const SAD: string := "sad"
  const EXCITED: string := "excited"

  const CharacterStates: seq<string> := [IDLE, TALKING, LISTENING, THINKING, HAPPY, SAD, EXCITED]

  // MESSAGE_TYPES
  const USER_MESSAGE: string := "user-message"
  const BOT_MESSAGE: string := "bot-message"
  const SYSTEM_MESSAGE: string := "system-message"

  // TTS_CONFIG (the three numbers are all 1.0)
  const TTS_LANGUAGE: string := "ko-KR"
  const TTS_RATE: real := 1.0
  const TTS_PITCH: real := 1.0
  const TTS_VOLUME: real := 1.0

  // AUDIO_VISUALIZATION.FFT_SIZE: an analyser exposes half as many frequency bins
  const FFT_SIZE: nat := 256

  // MOUTH_SHAPES
  const CLOSED: string := "closed"
  const OPEN: string := "open"
  const SMILE: string := "smile"
  const SURPRISED: string := "surprised"

  /** `Object.values(MOUTH_SHAPES)`, in declaration order. */
  const MouthShapes: seq<string> := [CLOSED, OPEN, SMILE, SURPRISED]

  // ERROR_MESSAGES
  const MICROPHONE_ACCESS: string := "마이크 접근 권한이 필요합니다."
  const SPEECH_NOT_SUPPORTED: string := "음성 인식이 지원되지 않는 브라우저입니다."
  const TTS_NOT_SUPPORTED: string := "음성 합성이 지원되지 않는 브라우저입니다."
  const NETWORK_ERROR: string := "네트워크 연결을 확인해주세요."
  const API_ERROR: string := "API 서버에 문제가 발생했습니다."
  const UNKNOWN_ERROR: string := "알 수 없는 오류가 발생했습니다."

}
