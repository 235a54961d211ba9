/**
 * The fixed values the system is configured with: where transactions are
 * served from on the production network and on a local test network, and how
 * many winstons (the smallest unit) make one AR (the base unit).
 */
module Constants {

  /** Base URL of the production network's gateway. */
  const ArweaveBaseUrl: string := "https://arweave.net/"

  /** Base URL of a local test network (ArLocal) on its default port. */
  const ArlocalBaseUrl: string := "http://localhost:1984/"

  /** Winstons per AR: 10^12. */
  const WinstonsPerAr: nat := 1_000_000_000_000
}
