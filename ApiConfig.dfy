/** The API base URL taken from the build-time setting `PUBLIC_API_BASE_URL`,
    which the auth service and the media-URL helper both read with the same
    fallback. The setting is a parameter: `None` when it is unset. */
module ApiConfig {
  import opened Wrappers
  import opened JsStrings

  const LocalApiUrl := "http://localhost:8000/api"

  /** `PUBLIC_API_BASE_URL || 'http://localhost:8000/api'`. */
  function ApiBaseUrl(configured: Option<string>): (r: string)
    ensures Truthy(configured) ==> r == configured.value
    ensures !Truthy(configured) ==> r == LocalApiUrl
    ensures r != ""
  {
    if Truthy(configured) then configured.value else LocalApiUrl
  }
}
