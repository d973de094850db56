/** Paths and defaults of the SDK (src/core/constants.ts). */
module Constants {

  const DEFAULT_BASE_URL: string := "https://api.prd.realitydefender.xyz"

  /** Milliseconds between two polling attempts. */
  const DEFAULT_POLLING_INTERVAL: int := 5000

  /** Milliseconds a background poll may run. */
  const DEFAULT_TIMEOUT: int := 300000

  const SIGNED_URL_PATH: string := "/api/files/aws-presigned"
  const MEDIA_RESULT_PATH: string := "/api/media/users"
  const ALL_MEDIA_RESULTS_PATH: string := "/api/v2/media/users/pages"
  const SOCIAL_MEDIA_PATH: string := "/api/files/social"

  /** `Number.MAX_SAFE_INTEGER`, the attempt budget when none is given. */
  const MAX_SAFE_INTEGER: int := 9007199254740991
}
