/** Option and Result for the query layer. Every failure the query layer can raise is an Error. */
module Wrappers {

  datatype Option<+T> = None | Some(value: T)

  /** The exceptions of the query layer, by class. */
  datatype Error =
    | InvalidParam(message: string)   // yii\base\InvalidParamException
    | NotSupported                      // yii\base\NotSupportedException
    | Raised(message: string)          // raised outside the model: never built here, only an IN builder may return it

  datatype Result<+T> = Ok(value: T) | Err(error: Error)
}
