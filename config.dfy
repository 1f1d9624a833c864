/** The two limits of the backend configuration that the modelled logic reads. */
module Config {
  /** How many screenshot paths the history keeps. */
  const MaxScreenshots: nat := 10

  /** How many search results are parsed and returned. */
  const MaxSearchResults: nat := 5
}
