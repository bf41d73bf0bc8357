/** Outcome types shared by every part of the configuration-sync model. */
module Results {

  datatype Option<+T> = None | Some(value: T)

  /** Why discovery of the cluster's network facts stopped the run. */
  datatype DiscoveryFault =
    | NoVpcOrSubnets         // the cluster description has no VPC id or no subnet ids
    | VpcNotFound            // the VPC listing came back empty
    | TooFewPrivateSubnets   // fewer than two subnets without public-IP auto-assignment
    | CloudCallFailed        // the cloud client itself raised

  /** Every way the script ends with `[ERROR] ...` and exit status 1. */
  datatype Failure =
    | KindMismatch(expected: string)  // the document's `kind` is not the one the patcher expects
    | NotFound(id: string)            // a required resource entry is missing
    | Malformed                       // a KeyError, TypeError or AttributeError on an unexpected document shape
    | Discovery(fault: DiscoveryFault)
    | FileMissing(path: string)       // a positional file path does not exist
    | NoRepoUri                       // neither --ecr-repo-uri nor ECR_IMAGE_URI was given
    | LoadFailed(path: string)        // the file could not be opened or its YAML text parsed

  datatype Result<+T> = Ok(value: T) | Err(error: Failure)
}
