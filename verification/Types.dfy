/** Values shared by every part of the control plane model. */
module Types {

  datatype Option<+T> = None | Some(value: T)

  newtype byte = x: int | 0 <= x < 256

  type UserId = string
  type TenantId = string

  /** An engine token, as the bytes of its UTF-8 text. */
  type Token = seq<byte>

  datatype Status = Pending | Provisioning | Ready | Error | Suspended

  /** One row of the tenants table, as a handler reads it. */
  datatype Tenant = Tenant(userId: UserId, tenantId: TenantId, token: Token, status: Status)

  /** The parts of AppState that steer the handlers. */
  datatype Config = Config(
    image: Option<string>,
    domain: Option<string>,
    scheme: string,
    devToken: Option<Token>,
    template: string,
    gvisor: bool,
    storageClass: string)
  {
    predicate K8s() { image.Some? }
  }

  const IDLE_TIMEOUT: nat := 3600
  const SWEEP_INTERVAL: nat := 300
  const MAX_CONCURRENT_SUSPENSIONS: nat := 20
}
