/**
 * The values a Docket stores and hands on. Apart from Option, every type here
 * stands for a class that lives outside the Docket (Spring, Guava, classmate,
 * other springdox packages). The Docket never looks inside them, so each is an
 * opaque value told apart by an identifier, and Java's null is Option.None.
 */
module Types {

  /** A Java reference that may be null. */
  datatype Option<T> = None | Some(value: T)

  /** A java.lang.Class token, named by its fully qualified class name. */
  datatype JavaClass = JavaClass(name: string)

  /** The class token of springdox.documentation.schema.WildcardType. */
  const WildcardTypeClass: JavaClass := JavaClass("springdox.documentation.schema.WildcardType")

  /** The plugin delimiter: which documentation format a Docket targets. */
  datatype DocumentationType = DocumentationType(name: string, version: string)

  /** Api meta information; DefaultApiInfo is the constant ApiInfo.DEFAULT. */
  datatype ApiInfo = DefaultApiInfo | CustomApiInfo(id: nat)

  datatype PathProvider = PathProvider(id: nat)

  datatype AuthorizationContext = AuthorizationContext(id: nat)

  datatype AuthorizationType = AuthorizationType(id: nat)

  /** A Guava Ordering over listing references, api descriptions or operations. */
  datatype Ordering = Ordering(id: nat)

  datatype ResponseMessage = ResponseMessage(id: nat)

  /** org.springframework.web.bind.annotation.RequestMethod */
  datatype RequestMethod = GET | HEAD | POST | PUT | PATCH | DELETE | OPTIONS | TRACE

  /** The strategy that matches request mappings against the include patterns. */
  datatype RequestMappingPatternMatcher =
    | RegexRequestMappingPatternMatcher
    | CustomPatternMatcher(id: nat)

  /** A type handle produced by classmate's TypeResolver. */
  datatype ResolvedType = ResolvedType(id: nat)

  /**
   * classmate's TypeResolver, reduced to the two calls a rule builder makes:
   * resolve(clazz) and resolve(clazz, parameter).
   */
  datatype TypeResolver = TypeResolver(
    resolve: JavaClass -> ResolvedType,
    resolveParameterized: (JavaClass, JavaClass) -> ResolvedType)

  /** A model substitution rule: render `original` as `alternate`. */
  datatype AlternateTypeRule = AlternateTypeRule(original: ResolvedType, alternate: ResolvedType)
}
