/**
 What the ingestion code throws and answers: Symfony's HttpException family,
 any other PHP exception, and PHP engine errors (which are not exceptions and
 slip past `catch (\Exception $e)`).
 */
module Http {

  datatype Thrown =
    | HttpException(status: int, message: string)
    | OtherException(message: string)
    | PhpError(message: string)
  {
    /** Whether `catch (\Exception $e)` catches it. */
    predicate IsException() {
      !PhpError?
    }
  }

  /** BadRequestHttpException. */
  function BadRequest(message: string): Thrown {
    HttpException(400, message)
  }

  /** NotFoundHttpException. */
  function NotFound(message: string): Thrown {
    HttpException(404, message)
  }

  /** HttpException(500, ...). */
  function ServerError(message: string): Thrown {
    HttpException(500, message)
  }

  /** How a call that returns nothing ends: normally, or by throwing. */
  datatype Status = Done | Threw(error: Thrown)

  /** How a call that returns a value ends. */
  datatype Result<+T> = Ok(value: T) | Err(error: Thrown)

  datatype Response = Response(status: int, body: string)

  /** How a controller action ends: a response, or an exception for the kernel. */
  datatype Reply = Responded(response: Response) | Raised(error: Thrown)
}
