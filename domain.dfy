/**
 * Vocabulary shared by the custom-resource handler and the provider it talks
 * to: property-bag values, the App Runner / CloudFormation records the handler
 * reads, the provider calls it issues, and the errors it reports.
 */
module Domain {

  /**
   * A value of the untyped property bag (`map[string]interface{}`).  A
   * missing key reads as `Nil`, exactly like a Go map lookup of an interface.
   */
  datatype Value = Str(s: string) | Int(i: int) | Nil | Other

  /** One auto scaling configuration revision as the provider lists it. */
  datatype Config = Config(arn: string, name: string, maxConcurrency: int, maxSize: int, minSize: int)

  /** One output of a CloudFormation stack. */
  datatype Output = Output(exportName: string, outputValue: string)

  /** One entry of an App Runner service's operation list. */
  datatype OperationSummary = OperationSummary(id: string, status: string)

  /** A provider call as the handler issues it, with its arguments. */
  datatype Call =
    | ListConfigsCall(name: string)
    | CreateConfigCall(name: string, maxConcurrency: int, maxSize: int, minSize: int)
    | DeleteConfigCall(arn: string)
    | DescribeStacksCall(stackName: string)
    | UpdateServiceCall(serviceArn: string, configArn: string)
    | ListOperationsCall(serviceArn: string)

  /** Why an invocation failed; each variant is one error path of the handler. */
  datatype Error =
      /** "<field> Assertion Error: %v": the field is missing or not a string. */
    | AssertionError(field: string, shown: Value)
      /** "<field> Convert Error: %v": the field is a string that Atoi rejects. */
    | ConvertError(field: string, shown: Value)
      /** Loading the SDK configuration for the region failed. */
    | ConfigLoadError
      /** A provider call returned an error, passed on verbatim. */
    | ProviderError(call: Call)
      /** "OperationId is empty" */
    | OperationIdEmpty
      /** "OperationSummaryList is empty" */
    | OperationListEmpty
      /** "OperationError status:<status>" */
    | OperationFailed(status: string)
      /** "Service Arns not found" */
    | ServiceArnsNotFound
}
